/**
 * The change-window reconciler in its own form: an object whose status is updated in place.
 *
 * The reconciler starts by taking a deep copy and ends by comparing with it, but the copy is shallow in places:
 * it shares the baseline and stabilization pointers and the backing arrays of the timeline and of the gate list.
 * Those four are heap objects here, Go slices included, so that `Reconcile` can promise two things at once: the
 * object ends up in the status `Window.Reconcile` computes, and the copy still shows the status before.
 */
module WindowController {
  import opened Base
  import opened Model
  import opened Evidence
  import opened Window
  import G = Gates
  import GateLoops

  /** A Go slice: a window onto a shared array, with room to grow in place up to its capacity. */
  datatype Slice<T> = Slice(backing: array<T>, offset: nat, length: nat, capacity: nat)

  predicate SliceOk<T>(s: Slice<T>)
  {
    s.length <= s.capacity && s.offset + s.capacity <= s.backing.Length
  }

  function Items<T>(s: Slice<T>): seq<T>
    requires SliceOk(s)
    reads s.backing
  {
    s.backing[s.offset..s.offset + s.length]
  }

  /** Go's append: into the spare capacity when there is some, into a fresh array otherwise. */
  method Append<T(0)>(s: Slice<T>, x: T) returns (r: Slice<T>)
    requires SliceOk(s)
    modifies s.backing
    ensures SliceOk(r) && (r.backing == s.backing || fresh(r.backing))
    ensures Items(r) == old(Items(s)) + [x]
    ensures Items(s) == old(Items(s))
  {
    if s.length < s.capacity {
      s.backing[s.offset + s.length] := x;
      r := s.(length := s.length + 1);
    } else {
      var grown := new T[2 * s.length + 1];
      for i := 0 to s.length
        invariant s.offset + s.length <= s.backing.Length
        invariant s.backing[..] == old(s.backing[..])
        invariant forall k :: 0 <= k < i ==> grown[k] == s.backing[s.offset + k]
      {
        grown[i] := s.backing[s.offset + i];
      }
      grown[s.length] := x;
      r := Slice(grown, 0, s.length + 1, 2 * s.length + 1);
    }
  }

  /** Re-slicing to the last `n` items moves the window; it writes nothing. */
  function Tail<T>(s: Slice<T>, n: nat): (r: Slice<T>)
    requires SliceOk(s)
    reads s.backing
    ensures SliceOk(r) && r.backing == s.backing && Items(r) == LastN(Items(s), n)
  {
    if s.length > n then Slice(s.backing, s.offset + (s.length - n), n, s.capacity - (s.length - n)) else s
  }

  /** A pointer target. */
  class Cell<T> {
    var value: T

    constructor (value: T)
      ensures this.value == value
    {
      this.value := value;
    }
  }

  function Target<T>(p: Cell?<T>): Option<T>
    reads p
  {
    if p == null then None else Some(p.value)
  }

  // ----- the loops that read rows -----

  method FetchStates(apps: seq<string>, fetched: seq<Fetch>, stored: map<string, AppState>)
    returns (states: map<string, AppState>, broken: bool)
    requires |apps| == |fetched|
    ensures broken <==> Merge(apps, fetched, stored).None?
    ensures !broken ==> Merge(apps, fetched, stored) == Some(states)
  {
    states, broken := stored, false;
    for i := 0 to |apps|
      invariant !broken && Merge(apps[..i], fetched[..i], stored) == Some(states)
    {
      assert apps[..i + 1][..i] == apps[..i] && fetched[..i + 1][..i] == fetched[..i];
      match fetched[i] {
        case Broken =>
          MergeBroken(apps, fetched, stored, i);
          return states, true;
        case Absent =>
        case Found(state) => states := states[apps[i] := state];
      }
    }
    assert apps[..|apps|] == apps && fetched[..|fetched|] == fetched;
  }

  lemma {:induction false} MergeBroken(apps: seq<string>, fetched: seq<Fetch>, stored: map<string, AppState>, i: nat)
    requires |apps| == |fetched| && i < |fetched| && fetched[i].Broken?
    ensures Merge(apps, fetched, stored).None?
  {
    var n := |apps| - 1;
    if i < n {
      MergeBroken(apps[..n], fetched[..n], stored, i);
    }
  }

  /** One more row of the current application, seen from the flat list of rows. */
  lemma {:induction false} RowStep(before: seq<G.Placed>, app: string, rows: seq<Row>, j: nat)
    requires j < |rows|
    ensures var longer := before + G.Place(app, rows)[..j + 1];
            |longer| == |before| + j + 1 && longer[|before| + j] == G.Placed(app, rows[j])
            && longer[..|before| + j] == before + G.Place(app, rows)[..j]
  {
  }

  /** Is the row silent, and how? */
  method ClassifySilence(spec: WindowSpec, now: Time, app: string, cs: Row) returns (c: Option<SilentCluster>)
    ensures c == Window.Classify(spec, now, G.Placed(app, cs))
  {
    var age := Sub(now, cs.observedAt);
    if age <= OrDefault(spec.staleReportThresholdSeconds, 300) {
      return None;
    }
    var saw := cs.sawReportSinceChgStart || cs.observedAt > spec.startTime || cs.observedAt == spec.startTime;
    if !saw {
      return Some(SilentCluster(app, cs.clusterName, SilentBeforeChgStart, cs.observedAt, age));
    }
    return Some(SilentCluster(app, cs.clusterName, WentSilentDuringChg, cs.observedAt, age));
  }

  method FindSilentRows(spec: WindowSpec, now: Time, app: string, rows: seq<Row>, found: seq<SilentCluster>,
                        ghost before: seq<G.Placed>)
    returns (silent: seq<SilentCluster>)
    requires found == SilentIn(spec, now, before)
    ensures silent == SilentIn(spec, now, before + G.Place(app, rows))
  {
    silent := found;
    ghost var here := G.Place(app, rows);
    assert before + here[..0] == before;
    for j := 0 to |rows|
      invariant silent == SilentIn(spec, now, before + here[..j])
    {
      RowStep(before, app, rows, j);
      var c := ClassifySilence(spec, now, app, rows[j]);
      if c.Some? {
        silent := silent + [c.value];
      }
    }
    assert here[..|rows|] == here;
  }

  method FindSilent(spec: WindowSpec, now: Time, order: seq<string>, states: map<string, AppState>)
    returns (silent: seq<SilentCluster>)
    ensures silent == SilentIn(spec, now, G.Flatten(order, states))
  {
    silent := [];
    for i := 0 to |order|
      invariant silent == SilentIn(spec, now, G.Flatten(order[..i], states))
    {
      G.FlattenStep(order, i, states);
      silent := FindSilentRows(spec, now, order[i], G.RowsOf(states, order[i]), silent, G.Flatten(order[..i], states));
    }
    assert order[..|order|] == order;
  }

  /** The parked hard refresh of one row: it only ever notes that it would have acted. */
  method RunParkedHardRefresh(spec: WindowSpec, now: Time, app: string, cs: Row, current: map<string, ActionRecord>)
    returns (actions: map<string, ActionRecord>)
    ensures actions == RunAction(spec, now, app, cs, current)
  {
    actions := current;
    var key := app + "/" + cs.clusterName;
    var maxAttempts := OrDefault(spec.maxAttempts, 2);
    var action := ActionRecord(app, cs.clusterName, 0, maxAttempts, ActionPending, ZERO_TIME, ZERO_TIME, []);
    if key in actions {
      action := actions[key];
    }
    if cs.state == InSync {
      if action.attempts > 0 && action.result != Resolved {
        action := action.(result := Resolved);
      }
      return actions[key := action];
    }
    if action.attempts >= maxAttempts {
      return actions[key := action.(result := ExhaustedRetries)];
    }
    var waitInterval := OrDefault(spec.waitBetweenSeconds, 180);
    if action.lastAttemptAt != ZERO_TIME && Sub(now, action.lastAttemptAt) < waitInterval {
      return;
    }
    action := action.(attempts := action.attempts + 1);
    action := action.(lastAttemptAt := now, nextEligibleAt := now + waitInterval, result := Parked);
    action := action.(history := action.history + [Attempt(action.attempts, now)]);
    actions := actions[key := action];
  }

  method Refresh(spec: WindowSpec, now: Time, app: string, row: Row, current: map<string, ActionRecord>)
    returns (actions: map<string, ActionRecord>)
    ensures actions == if Refreshable(row.state) then RunAction(spec, now, app, row, current) else current
  {
    actions := current;
    if row.state == Diverged || row.state == OutOfSyncRow {
      actions := RunParkedHardRefresh(spec, now, app, row, current);
    }
  }

  lemma {:induction false} RunActionsStep(spec: WindowSpec, now: Time, before: seq<G.Placed>, p: G.Placed,
                                          stored: map<string, ActionRecord>)
    ensures RunActions(spec, now, before + [p], stored)
         == var rest := RunActions(spec, now, before, stored);
            if Refreshable(p.row.state) then RunAction(spec, now, p.app, p.row, rest) else rest
  {
    assert (before + [p])[..|before|] == before;
  }

  method RefreshRows(spec: WindowSpec, now: Time, app: string, rows: seq<Row>, ghost stored: map<string, ActionRecord>,
                     current: map<string, ActionRecord>, ghost before: seq<G.Placed>)
    returns (actions: map<string, ActionRecord>)
    requires current == RunActions(spec, now, before, stored)
    ensures actions == RunActions(spec, now, before + G.Place(app, rows), stored)
  {
    actions := current;
    ghost var here := G.Place(app, rows);
    assert before + here[..0] == before;
    for j := 0 to |rows|
      invariant actions == RunActions(spec, now, before + here[..j], stored)
    {
      RowStep(before, app, rows, j);
      RunActionsStep(spec, now, before + here[..j], G.Placed(app, rows[j]), stored);
      actions := Refresh(spec, now, app, rows[j], actions);
    }
    assert here[..|rows|] == here;
  }

  method RefreshParked(spec: WindowSpec, now: Time, order: seq<string>, states: map<string, AppState>,
                       stored: map<string, ActionRecord>)
    returns (actions: map<string, ActionRecord>)
    ensures actions == RunActions(spec, now, G.Flatten(order, states), stored)
  {
    actions := stored;
    for i := 0 to |order|
      invariant actions == RunActions(spec, now, G.Flatten(order[..i], states), stored)
    {
      G.FlattenStep(order, i, states);
      actions := RefreshRows(spec, now, order[i], G.RowsOf(states, order[i]), stored, actions,
          G.Flatten(order[..i], states));
    }
    assert order[..|order|] == order;
  }

  lemma {:induction false} RowHead(app: string, rows: seq<Row>, j: nat, rest: seq<G.Placed>)
    requires j < |rows|
    ensures var todo := G.Place(app, rows)[j..] + rest;
            todo != [] && todo[0] == G.Placed(app, rows[j]) && todo[1..] == G.Place(app, rows)[j + 1..] + rest
  {
  }

  /** What one row adds to the baseline, field by field. */
  method AbsorbRow(env: Env, b0: Baseline, po: Platform) returns (b: Baseline)
    ensures b == Absorb(env, b0, po)
  {
    b := b0;
    if po.clusterVersion.version != "" {
      b := b.(clusterVersion := po.clusterVersion.version);
    }
    if po.kubeVirt.observedVersion != "" {
      b := b.(kubeVirtVersion := po.kubeVirt.observedVersion);
    }
    if po.cdi.observedVersion != "" {
      b := b.(cdiVersion := po.cdi.observedVersion);
    }
    if po.ssp.observedVersion != "" {
      b := b.(sspVersion := po.ssp.observedVersion);
    }
    if |po.operators| > 0 {
      b := b.(clusterOperatorDigest := env.operatorDigest(po.operators));
    }
    if |po.pools| > 0 {
      b := b.(machineConfigPoolHash := env.poolDigest(po.pools));
    }
  }

  method CaptureRows(env: Env, b0: Baseline, app: string, rows: seq<Row>, ghost rest: seq<G.Placed>)
    returns (b: Baseline, found: bool)
    ensures CaptureFrom(env, b0, G.Place(app, rows) + rest) == if found then b else CaptureFrom(env, b, rest)
  {
    b, found := b0, false;
    ghost var goal := CaptureFrom(env, b0, G.Place(app, rows) + rest);
    assert G.Place(app, rows)[0..] == G.Place(app, rows);
    for j := 0 to |rows|
      invariant !found && goal == CaptureFrom(env, b, G.Place(app, rows)[j..] + rest)
    {
      RowHead(app, rows, j, rest);
      b := AbsorbRow(env, b, rows[j].platform);
      if b.clusterVersion != "" || b.kubeVirtVersion != "" {
        return b, true;
      }
    }
    assert G.Place(app, rows)[|rows|..] + rest == rest;
  }

  method CaptureBaseline(env: Env, now: Time, order: seq<string>, states: map<string, AppState>) returns (b: Baseline)
    ensures b == Capture(env, G.Flatten(order, states), now)
  {
    b := Baseline(now, "", "", "", "", "", "");
    ghost var goal := CaptureFrom(env, b, G.Flatten(order, states));
    assert order[0..] == order;
    for i := 0 to |order|
      invariant goal == CaptureFrom(env, b, G.Flatten(order[i..], states))
    {
      G.FlattenHead(order[i..], states);
      assert order[i..][1..] == order[i + 1..];
      var found: bool;
      b, found := CaptureRows(env, b, order[i], G.RowsOf(states, order[i]), G.Flatten(order[i + 1..], states));
      if found {
        return;
      }
    }
  }

  /** Everything a reconcile of the open window observes, loop by loop. */
  method ObserveAll(env: Env, spec: WindowSpec, st: Status, states: map<string, AppState>, inp: Inputs)
    returns (obs: Observation)
    ensures obs == Observe(env, spec, st, states, inp)
  {
    var baseline, previous;
    if st.baseline.None? {
      baseline := CaptureBaseline(env, inp.now, inp.baselineOrder, states);
      previous := BaselineCaptured;
    } else {
      baseline, previous := st.baseline.value, st.phase;
    }
    var silent := FindSilent(spec, inp.now, inp.silenceOrder, states);
    var actions := RefreshParked(spec, inp.now, inp.actionOrder, states, st.actions);
    var validation := GateLoops.EvaluateGates(spec, inp.hub, inp.gateOrder, states, silent, st.validation.gateResults,
        inp.now);
    obs := Observation(baseline, silent, actions, validation, previous);
  }

  // ----- the object -----

  lemma {:induction false} AdoptParts(st: Status, obs: Observation)
    ensures var kept := st.(baseline := Some(obs.baseline));
            var judged := kept.(validation := obs.validation);
            judged.(phase := obs.previous, silent := obs.silent, actions := obs.actions) == Window.Adopt(st, obs)
  {
  }

  class ChangeWindow {
    const spec: WindowSpec
    var phase: Phase
    var overall: Overall
    var silent: seq<SilentCluster>
    var actions: map<string, ActionRecord>
    var gateResults: Slice<GateResult>
    var issues: seq<Issue>
    var passed: bool
    var stabilizationStartedAt: Cell?<Time>
    var lastReportedAt: Time
    var appStates: map<string, AppState>
    var baseline: Cell?<Baseline>
    var signedReport: Option<SignedReport>
    var timeline: Slice<TimelineEntry>

    ghost predicate Valid()
      reads this
    {
      && SliceOk(gateResults) && SliceOk(timeline)
      && (gateResults.backing as object) != (timeline.backing as object)
    }

    function ValidationView(): Validation
      requires Valid()
      reads this, gateResults.backing
    {
      Validation(Items(gateResults), issues, passed)
    }

    /** The status as a value: what a reader of this object sees. */
    function View(): Status
      requires Valid()
      reads this, gateResults.backing, timeline.backing, stabilizationStartedAt, baseline
    {
      Status(phase, overall, silent, actions, ValidationView(),
             Target(stabilizationStartedAt), lastReportedAt, appStates, Target(baseline), signedReport, Items(timeline))
    }

    /** A window nobody has reconciled yet. */
    constructor (spec: WindowSpec)
      ensures Valid() && View() == NEW_STATUS && this.spec == spec
      ensures fresh(gateResults.backing) && fresh(timeline.backing)
    {
      this.spec := spec;
      phase, overall, silent, actions, issues, passed := PhaseUnset, OverallUnset, [], map[], [], false;
      stabilizationStartedAt, baseline, lastReportedAt, appStates, signedReport := null, null, ZERO_TIME, map[], None;
      var noGates := new GateResult[0];
      var noEntries := new TimelineEntry[0];
      gateResults := Slice(noGates, 0, 0, 0);
      timeline := Slice(noEntries, 0, 0, 0);
    }

    /** The generated copy: pointers and the two slices are copied as they are, so their targets are shared. */
    constructor CopyOf(w: ChangeWindow)
      requires w.Valid()
      ensures Valid() && View() == w.View() && spec == w.spec
      ensures gateResults == w.gateResults && timeline == w.timeline
      ensures stabilizationStartedAt == w.stabilizationStartedAt && baseline == w.baseline
    {
      spec := w.spec;
      phase, overall, silent, actions, issues, passed := w.phase, w.overall, w.silent, w.actions, w.issues, w.passed;
      lastReportedAt, appStates, signedReport := w.lastReportedAt, w.appStates, w.signedReport;
      gateResults, timeline := w.gateResults, w.timeline;
      stabilizationStartedAt, baseline := w.stabilizationStartedAt, w.baseline;
    }

    /** The switch over the verdict: phase, overall status and stabilization clock. */
    method Decide(now: Time, validated: bool)
      requires Valid()
      modifies this`phase, this`overall, this`stabilizationStartedAt
      ensures Valid()
      ensures var d := Window.Decide(spec, now, old(phase), validated, old(Target(stabilizationStartedAt)));
              View() == old(View()).(phase := d.phase, overall := d.overall,
                  stabilizationStartedAt := d.stabilizationStartedAt)
    {
      var previous := phase;
      if validated {
        var period := Stabilization(spec);
        if period > 0 {
          if stabilizationStartedAt == null {
            stabilizationStartedAt := new Cell(now);
          }
          if now < stabilizationStartedAt.value + period {
            phase, overall := PlatformRecovering, InProgress;
          } else {
            phase, overall := Succeeded, Good;
          }
        } else {
          phase, overall := Succeeded, Good;
        }
      } else if now > spec.endTime {
        stabilizationStartedAt := null;
        phase, overall := TimedOut, DegradedWindow;
      } else {
        stabilizationStartedAt := null;
        if previous == Scheduled || previous == BaselineCaptured || previous == PendingPhase || previous == PhaseUnset {
          phase := WaitingForChange;
        } else {
          phase := Executing;
        }
        overall := InProgress;
      }
    }

    /** Append to the timeline, which may write into the array the copy shares, and keep the last fifty entries. */
    method RecordTransition(e: TimelineEntry)
      requires Valid()
      modifies this`timeline, timeline.backing
      ensures Valid() && Items(old(timeline)) == old(Items(timeline))
      ensures View() == old(View()).(timeline := Extend(old(Items(timeline)), e))
    {
      var longer := Append(timeline, e);
      timeline := Tail(longer, TIMELINE_LIMIT);
    }

    /** The signed report of a concluding phase. */
    method SignReport(env: Env, signedAt: Time)
      requires Valid() && baseline != null
      modifies this`signedReport
      ensures Valid()
      ensures var st := old(View());
              View() == st.(signedReport := Some(Sign(env, spec, st.baseline, st.validation.gateResults, st.phase,
                  signedAt)))
    {
      signedReport := Some(Sign(env, spec, Some(baseline.value), Items(gateResults), phase, signedAt));
    }

    /** Phase decision and, when it concludes the window, the signed report. */
    method Conclude(env: Env, inp: Inputs)
      requires Valid() && baseline != null
      modifies this`phase, this`overall, this`stabilizationStartedAt, this`signedReport
      ensures Valid()
      ensures View() == Window.Conclude(env, spec, old(View()), inp)
    {
      Decide(inp.now, passed);
      if phase == Succeeded || phase == Failed || phase == TimedOut {
        SignReport(env, inp.signedAt);
      }
    }

    /** A published report is noted. */
    method MarkReported(now: Time)
      requires Valid()
      modifies this`lastReportedAt
      ensures Valid() && View() == old(View()).(lastReportedAt := now)
    {
      lastReportedAt := now;
    }

    /** Timeline entry on a phase change. */
    method NotePhase(now: Time, previous: Phase) returns (phaseChanged: bool)
      requires Valid()
      modifies this`timeline, timeline.backing
      ensures Valid() && Items(old(timeline)) == old(Items(timeline))
      ensures phaseChanged == (old(phase) != previous)
      ensures View() == if phaseChanged
              then old(View()).(timeline := Extend(old(View()).timeline, TimelineEntry(now, previous, old(phase))))
                        else old(View())
    {
      phaseChanged := phase != previous;
      if phaseChanged {
        RecordTransition(TimelineEntry(now, previous, phase));
      }
    }

    /** Timeline entry on a phase change; report on any change, or when the heartbeat is due. */
    method Announce(inp: Inputs, before: Validation, previous: Phase) returns (attempted: bool, reported: bool)
      requires Valid()
      modifies this`timeline, this`lastReportedAt, timeline.backing
      ensures Valid() && Items(old(timeline)) == old(Items(timeline))
      ensures attempted == Window.Announce(old(View()), inp, before, previous).attempted
      ensures reported == Window.Announce(old(View()), inp, before, previous).reported
      ensures View() == Window.Announce(old(View()), inp, before, previous).status
    {
      var validationChanged := before != ValidationView();
      var timeForHeartbeat := HeartbeatDue(lastReportedAt, inp.now);
      var phaseChanged := NotePhase(inp.now, previous);
      attempted := phaseChanged || validationChanged || timeForHeartbeat;
      reported := attempted && inp.publishWorks;
      if reported {
        MarkReported(inp.now);
      }
    }

    /** The gate list is replaced by a fresh one; the old one stays as it was. */
    method SetValidation(v: Validation)
      requires Valid()
      modifies this`gateResults, this`issues, this`passed
      ensures Valid() && View() == old(View()).(validation := v)
    {
      var rs := v.gateResults;
      var listed := new GateResult[|rs|](i requires 0 <= i < |rs| => rs[i]);
      assert listed[0..|rs|] == rs;
      gateResults := Slice(listed, 0, |rs|, |rs|);
      issues, passed := v.issues, v.passed;
    }

    /** The baseline is written once. */
    method SetBaseline(b: Baseline)
      requires Valid() && (baseline != null ==> b == baseline.value)
      modifies this`baseline
      ensures Valid() && baseline != null && View() == old(View()).(baseline := Some(b))
    {
      if baseline == null {
        baseline := new Cell(b);
      }
    }

    method SetObserved(obs: Observation)
      requires Valid()
      modifies this`phase, this`silent, this`actions
      ensures Valid() && View() == old(View()).(phase := obs.previous, silent := obs.silent, actions := obs.actions)
    {
      phase, silent, actions := obs.previous, obs.silent, obs.actions;
    }

    method Adopt(obs: Observation)
      requires Valid() && (baseline != null ==> obs.baseline == baseline.value)
      modifies this`phase, this`silent, this`actions, this`gateResults, this`issues, this`passed, this`baseline
      ensures Valid() && baseline != null
      ensures View() == Window.Adopt(old(View()), obs)
    {
      ghost var st := View();
      SetBaseline(obs.baseline);
      SetValidation(obs.validation);
      SetObserved(obs);
      AdoptParts(st, obs);
    }

    /** Before the window opens only the waiting is noted. */
    method Schedule()
      requires Valid()
      modifies this`phase, this`overall
      ensures Valid() && View() == old(View()).(phase := Scheduled, overall := Pending)
    {
      phase, overall := Scheduled, Pending;
    }

    /** The fetched states replace the stored ones, unless a read fails. */
    method TakeStates(fetched: seq<Fetch>) returns (broken: bool)
      requires Valid() && |fetched| == |spec.impactedApps|
      modifies this`appStates
      ensures Valid() && (broken <==> Merge(spec.impactedApps, fetched, old(appStates)).None?)
      ensures !broken ==> Merge(spec.impactedApps, fetched, old(appStates)) == Some(appStates)
      ensures View() == old(View()).(appStates := appStates)
    {
      var states;
      states, broken := FetchStates(spec.impactedApps, fetched, appStates);
      if !broken {
        appStates := states;
      }
    }

    /** The reconcile of the open window, after the copy has been taken. */
    method ReconcileOpen(env: Env, inp: Inputs, original: ChangeWindow)
      returns (done: bool, attempted: bool, reported: bool)
      requires Valid() && original.Valid() && original != this && |inp.fetched| == |spec.impactedApps|
      requires original.timeline == timeline && original.gateResults == gateResults
      requires original.baseline == baseline && original.stabilizationStartedAt == stabilizationStartedAt
      requires View() == original.View()
      modifies this, timeline.backing
      ensures Valid() && original.View() == old(original.View())
      ensures var m := Merge(spec.impactedApps, inp.fetched, old(appStates));
              && done == m.Some?
              && (done ==> var o := Window.Proceed(env, spec, old(View()), m.value, inp);
                           View() == o.status && attempted == o.attempted && reported == o.reported)
    {
      attempted, reported := false, false;
      var broken := TakeStates(inp.fetched);
      done := !broken;
      if done {
        attempted, reported := Proceed(env, inp, original);
      }
    }

    /**
     * One reconcile. `original` is the copy it compares with at the end: whatever happens to the object, it still
     * shows the status before.
     */
    method Reconcile(env: Env, inp: Inputs)
      returns (original: ChangeWindow, done: bool, attempted: bool, reported: bool)
      requires Valid() && |inp.fetched| == |spec.impactedApps|
      modifies this, timeline.backing
      ensures Valid() && fresh(original) && original.Valid()
      ensures original.View() == old(View())
      ensures var o := Window.Reconcile(env, spec, old(View()), inp);
              done == o.Done? && (done ==> View() == o.status && attempted == o.attempted && reported == o.reported)
    {
      original := new ChangeWindow.CopyOf(this);
      if inp.now < spec.startTime {
        done, attempted, reported := true, false, false;
        Schedule();
      } else {
        done, attempted, reported := ReconcileOpen(env, inp, original);
      }
    }

    /** The step up to the timeline touches no shared memory at all. */
    method AdoptAndConclude(env: Env, inp: Inputs, obs: Observation)
      requires Valid() && (baseline != null ==> obs.baseline == baseline.value)
      modifies this`phase, this`overall, this`silent, this`actions, this`gateResults, this`issues, this`passed,
               this`stabilizationStartedAt, this`baseline, this`signedReport
      ensures Valid() && View() == Window.Conclude(env, spec, Window.Adopt(old(View()), obs), inp)
    {
      Adopt(obs);
      Conclude(env, inp);
    }

    /** The rest may write into the timeline array the copy shares, and yet the copy does not change. */
    method AnnounceBesideCopy(inp: Inputs, original: ChangeWindow, before: Validation, previous: Phase)
      returns (attempted: bool, reported: bool)
      requires Valid() && original.Valid() && original != this && original.timeline == timeline
      modifies this`timeline, this`lastReportedAt, timeline.backing
      ensures Valid() && original.View() == old(original.View())
      ensures attempted == Window.Announce(old(View()), inp, before, previous).attempted
      ensures reported == Window.Announce(old(View()), inp, before, previous).reported
      ensures View() == Window.Announce(old(View()), inp, before, previous).status
    {
      attempted, reported := Announce(inp, before, previous);
    }

    /** From the observation on. `original` shares pointers and backing arrays with the object throughout. */
    method Settle(env: Env, inp: Inputs, original: ChangeWindow, obs: Observation)
      returns (attempted: bool, reported: bool)
      requires Valid() && original.Valid() && original != this && (baseline != null ==> obs.baseline == baseline.value)
      requires original.timeline == timeline && original.gateResults == gateResults
      requires original.baseline == baseline && original.stabilizationStartedAt == stabilizationStartedAt
      requires original.ValidationView() == ValidationView()
      modifies this, timeline.backing
      ensures Valid() && original.View() == old(original.View())
      ensures var o := Window.Settle(env, spec, old(View()), inp, obs);
              View() == o.status && attempted == o.attempted && reported == o.reported
    {
      ghost var was := original.View();
      var before := original.ValidationView();
      AdoptAndConclude(env, inp, obs);
      assert original.View() == was;
      attempted, reported := AnnounceBesideCopy(inp, original, before, obs.previous);
    }

    /** From the fetched states on. */
    method Proceed(env: Env, inp: Inputs, original: ChangeWindow) returns (attempted: bool, reported: bool)
      requires Valid() && original.Valid() && original != this
      requires original.timeline == timeline && original.gateResults == gateResults
      requires original.baseline == baseline && original.stabilizationStartedAt == stabilizationStartedAt
      requires View() == original.View().(appStates := appStates)
      modifies this, timeline.backing
      ensures Valid() && original.View() == old(original.View())
      ensures var o := Window.Proceed(env, spec, old(original.View()), old(appStates), inp);
              View() == o.status && attempted == o.attempted && reported == o.reported
    {
      var obs := ObserveAll(env, spec, original.View(), appStates, inp);
      attempted, reported := Settle(env, inp, original, obs);
    }
  }
}
