/**
 * The window inside the whole system. Its part of any run of the system is a run in the sense of `Runs`, so the run
 * theorems apply; with `PassedIsBacked` they say what a stored Succeeded rests on.
 */
module EndToEndRuns {
  import opened Base
  import opened Model
  import opened Evidence
  import opened EndToEnd
  import A = EndToEndApps
  import R = Runs
  import RT = RunTheorems
  import W = Window

  /** The window events of a run, with what they read. */
  function WindowRun(u: Setup, events: seq<Event>): (r: seq<R.Event>)
    ensures forall i :: 0 <= i < |r| ==> |r[i].inputs.fetched| == |u.spec.impactedApps|
  {
    if events == [] then []
    else
      var front := WindowRun(u, events[..|events| - 1]);
      var s := After(u, events[..|events| - 1]);
      var e := events[|events| - 1];
      if CanReconcile(u, s, e) then front + [R.Event(InputsOf(u, s, e), e.written)] else front
  }

  /** Only a reconcile that gets through and is written touches the window. */
  lemma {:induction false} WindowStep(u: Setup, s: System, e: Event)
    ensures Apply(u, s, e).window == if CanReconcile(u, s, e) && OutcomeOf(u, s, e).Done? && e.written
                                     then OutcomeOf(u, s, e).status else s.window
  {
  }

  lemma {:induction false} RunStep(u: Setup, front: seq<R.Event>, st: Status, read: R.Event)
    requires st == R.AfterBy(u.step, front)
    ensures R.AfterBy(u.step, front + [read])
         == var o := u.step(st, read.inputs); if o.Done? && read.written then o.status else st
  {
    R.OneMoreBy(u.step, u.spec.startTime, front, read);
  }

  /** The window of the system is the window of that run. */
  lemma {:induction false} WindowFollowsRun(u: Setup, events: seq<Event>)
    ensures After(u, events).window == R.AfterBy(u.step, WindowRun(u, events))
  {
    if events != [] {
      var front := events[..|events| - 1];
      var s, e := After(u, front), events[|events| - 1];
      WindowFollowsRun(u, front);
      WindowStep(u, s, e);
      if CanReconcile(u, s, e) {
        RunStep(u, WindowRun(u, front), s.window, R.Event(InputsOf(u, s, e), e.written));
      }
    }
  }

  /** Whenever the reconciler of the open window gets through, it has ranged over each application once. */
  ghost predicate RangesOnce(u: Setup, s: System, e: Event)
  {
    CanReconcile(u, s, e) && e.inputs.now >= u.spec.startTime && OutcomeOf(u, s, e).Done?
    ==> RangesProperly(e.inputs, OutcomeOf(u, s, e).status.appStates)
  }

  ghost predicate Proper(u: Setup, events: seq<Event>)
  {
    events != [] ==>
      && Proper(u, events[..|events| - 1])
      && RangesOnce(u, After(u, events[..|events| - 1]), events[|events| - 1])
  }

  // ----- what was once backed stays backed -----

  /** Each application's state is that of some version of an object found for it, and rests on reports. */
  ghost predicate Rest(s: System, states: map<string, AppState>, now: Time, spec: WindowSpec)
  {
    exists found :: StatesRest(s, states, found, now, spec)
  }

  lemma {:induction false} RowsRestGrows(s: System, t: System, a: Aggregation, rows: seq<Row>, now: Time,
                                         spec: WindowSpec)
    requires Extends(s, t) && RowsRest(s.written, a, rows, now, spec)
    ensures RowsRest(t.written, a, rows, now, spec)
  {
    forall i | 0 <= i < |rows| ensures RowRests(t.written, a.look, rows[i], now, spec) {
      assert RowRests(s.written, a.look, rows[i], now, spec);
      assert forall w :: w in s.written ==> w in t.written;
    }
  }

  lemma {:induction false} AppRestsGrows(s: System, t: System, app: string, st: AppState, v: nat, now: Time,
                                         spec: WindowSpec)
    requires Extends(s, t) && AppRests(s, app, st, v, now, spec)
    ensures AppRests(t, app, st, v, now, spec)
  {
    if st.rows != [] {
      RowsRestGrows(s, t, s.log[s.past[v].made.value], st.rows, now, spec);
    }
  }

  lemma {:induction false} RestGrows(s: System, t: System, states: map<string, AppState>, now: Time, spec: WindowSpec)
    requires Extends(s, t) && Rest(s, states, now, spec)
    ensures Rest(t, states, now, spec)
  {
    var found :| StatesRest(s, states, found, now, spec);
    forall a | a in states ensures AppRests(t, a, states[a], found[a], now, spec) {
      AppRestsGrows(s, t, a, states[a], found[a], now, spec);
    }
    assert StatesRest(t, states, found, now, spec);
  }

  /** If the step passed, it rests on reports. */
  ghost predicate StepRests(s: System, spec: WindowSpec, step: R.Step)
  {
    step.after.validation.passed ==> Rest(s, step.after.appStates, step.inputs.now, spec)
  }

  ghost predicate AllRest(s: System, spec: WindowSpec, h: seq<R.Step>)
  {
    forall i :: 0 <= i < |h| ==> StepRests(s, spec, h[i])
  }

  lemma {:induction false} AllRestGrows(s: System, t: System, spec: WindowSpec, h: seq<R.Step>)
    requires Extends(s, t) && AllRest(s, spec, h)
    ensures AllRest(t, spec, h)
  {
    forall i | 0 <= i < |h| ensures StepRests(t, spec, h[i]) {
      assert StepRests(s, spec, h[i]);
      if h[i].after.validation.passed {
        RestGrows(s, t, h[i].after.appStates, h[i].inputs.now, spec);
      }
    }
  }

  /** One more event adds at most one step to the window's history, and that step, if it passed, rests on reports. */
  lemma {:induction false} NewStepRests(u: Setup, front: seq<Event>, e: Event)
    requires Faithful(u) && RangesOnce(u, After(u, front), e) && CanReconcile(u, After(u, front), e)
    ensures var s := After(u, front);
            AllRest(s, u.spec, R.NewStep(s.window, R.Event(InputsOf(u, s, e), e.written), OutcomeOf(u, s, e),
                u.spec.startTime))
  {
    var s := After(u, front);
    if OutcomeOf(u, s, e).Done? && e.inputs.now >= u.spec.startTime {
      PassedIsBacked(u, front, e);
    }
  }

  lemma {:induction false} AllRestAppend(s: System, t: System, spec: WindowSpec, g: seq<R.Step>, more: seq<R.Step>)
    requires Extends(s, t) && AllRest(s, spec, g) && AllRest(s, spec, more)
    ensures AllRest(t, spec, g + more)
  {
    assert AllRest(s, spec, g + more);
    AllRestGrows(s, t, spec, g + more);
  }

  /** The window's history. */
  function WindowHistory(u: Setup, events: seq<Event>): seq<R.Step>
  {
    R.HistoryBy(u.step, u.spec.startTime, WindowRun(u, events))
  }

  /** Every stored passing step of the window's history rests on reports. */
  lemma {:induction false} HistoryRests(u: Setup, events: seq<Event>)
    requires Faithful(u) && Proper(u, events)
    ensures AllRest(After(u, events), u.spec, WindowHistory(u, events))
  {
    if events != [] {
      var front := events[..|events| - 1];
      var e := events[|events| - 1];
      var s := After(u, front);
      HistoryRests(u, front);
      StepExtends(u, s, e);
      if CanReconcile(u, s, e) {
        var read := R.Event(InputsOf(u, s, e), e.written);
        NewStepRests(u, front, e);
        WindowFollowsRun(u, front);
        R.OneMoreBy(u.step, u.spec.startTime, WindowRun(u, front), read);
        AllRestAppend(s, After(u, events), u.spec, WindowHistory(u, front),
                      R.NewStep(s.window, read, OutcomeOf(u, s, e), u.spec.startTime));
      } else {
        AllRestGrows(s, After(u, events), u.spec, WindowHistory(u, front));
      }
    }
  }

  /** From step `k` on every stored reconcile has passed, and rests on reports. */
  ghost predicate BlockRests(s: System, spec: WindowSpec, h: seq<R.Step>, k: int)
  {
    forall j :: k <= j < |h| && 0 <= j ==>
        h[j].after.validation.passed
        && Rest(s, h[j].after.appStates, h[j].inputs.now, spec)
  }

  lemma {:induction false} PassedBlockRests(s: System, spec: WindowSpec, h: seq<R.Step>, k: nat)
    requires AllRest(s, spec, h) && forall j :: k <= j < |h| ==> RT.PassedAt(h, j)
    ensures BlockRests(s, spec, h, k)
  {
    forall j | k <= j < |h| ensures h[j].after.validation.passed
      && Rest(s, h[j].after.appStates, h[j].inputs.now, spec) {
      assert RT.PassedAt(h, j) && StepRests(s, spec, h[j]);
    }
  }

  /** The window's states are those of exactly the applications ever found. */
  lemma {:induction false} StatesAreFound(u: Setup, events: seq<Event>)
    requires Faithful(u)
    ensures forall a :: a in After(u, events).window.appStates <==> A.EverFound(u, events, a)
  {
    RunsKeepInv(u, events);
    forall a ensures a in After(u, events).window.appStates <==> A.EverFound(u, events, a) {
      A.FoundExactly(u, events, a);
    }
  }

  /** The block of a successful history: it ends with what is stored, spans the period and rests on reports. */
  ghost predicate Block(s: System, spec: WindowSpec, h: seq<R.Step>, k: nat)
  {
    && k < |h| && s.window == h[|h| - 1].after
    && h[|h| - 1].inputs.now - h[k].inputs.now >= W.Stabilization(spec)
    && BlockRests(s, spec, h, k)
  }

  lemma {:induction false} BlockOfSuccess(env: Env, spec: WindowSpec, evs: seq<R.Event>, h: seq<R.Step>, s: System)
    returns (k: nat)
    requires R.WellFormed(spec, evs) && h == R.History(env, spec, evs) && s.window == R.After(env, spec, evs)
    requires AllRest(s, spec, h) && s.window.phase == Succeeded
    ensures Block(s, spec, h, k)
  {
    k := RT.StoredSuccessIsBacked(env, spec, evs, h, s.window);
    PassedBlockRests(s, spec, h, k);
  }

  /**
   * A stored Succeeded, after any run of the whole system, is backed by an unbroken block of stored reconciles ending
   * with the one that stored it and spanning at least the stabilization period. Each of them found, application by
   * application, the rows of one aggregation of an object found for it, each row the copy of a report that some agent
   * wrote in this run, recently, about a healthy application at the expected revision. The applications seen are
   * exactly those some stored reconcile ever found an object for.
   */
  lemma {:induction false} SuccessIsBacked(env: Env, spec: WindowSpec, u: Setup, events: seq<Event>) returns (k: nat)
    requires u == SetupOf(env, spec) && Proper(u, events) && R.WellFormed(spec, WindowRun(u, events))
    requires After(u, events).window.phase == Succeeded
    ensures Block(After(u, events), spec, WindowHistory(u, events), k)
    ensures forall a :: a in After(u, events).window.appStates <==> A.EverFound(u, events, a)
    ensures forall w :: w in After(u, events).written ==> w in events
    ensures forall a :: a in After(u, events).log ==> InRun(events, a)
  {
    SetupIsFaithful(env, spec);
    WritesHappened(u, events);
    AggregationsHappened(u, events);
    WindowFollowsRun(u, events);
    HistoryRests(u, events);
    k := BlockOfSuccess(env, spec, WindowRun(u, events), WindowHistory(u, events), After(u, events));
    StatesAreFound(u, events);
  }
}
