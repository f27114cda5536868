/** A window that has nothing new to see, nothing due and no deadline to cross is left exactly as it is. */
module SteadyState {
  import opened Base
  import opened Model
  import opened Evidence
  import opened Window
  import opened Quiescence
  import G = Gates

  // ----- merging the same fetches twice -----

  function LastFound(apps: seq<string>, fetched: seq<Fetch>, app: string): Option<AppState>
    requires |apps| == |fetched|
  {
    if apps == [] then None
    else
      var n := |apps| - 1;
      if apps[n] == app && fetched[n].Found? then Some(fetched[n].state) else LastFound(apps[..n], fetched[..n], app)
  }

  /** After the fetches an application shows its last successful fetch, or what was stored before. */
  lemma {:induction false} MergeMeaning(apps: seq<string>, fetched: seq<Fetch>, states: map<string, AppState>)
    requires |apps| == |fetched|
    ensures Merge(apps, fetched, states).Some? <==> forall i :: 0 <= i < |fetched| ==> !fetched[i].Broken?
    ensures Merge(apps, fetched, states).Some? ==>
              var m := Merge(apps, fetched, states).value;
              forall a :: (a in m <==> a in states || LastFound(apps, fetched, a).Some?)
                       && (a in m ==> m[a] == if LastFound(apps, fetched, a).Some?
                          then LastFound(apps, fetched, a).value else states[a])
  {
    if apps != [] {
      var n := |apps| - 1;
      MergeMeaning(apps[..n], fetched[..n], states);
      assert fetched == fetched[..n] + [fetched[n]];
    }
  }

  lemma {:induction false} MergeTwice(apps: seq<string>, fetched: seq<Fetch>, states: map<string, AppState>)
    requires |apps| == |fetched| && Merge(apps, fetched, states).Some?
    ensures var m := Merge(apps, fetched, states).value; Merge(apps, fetched, m) == Some(m)
  {
    var m := Merge(apps, fetched, states).value;
    MergeMeaning(apps, fetched, states);
    MergeMeaning(apps, fetched, m);
    var m' := Merge(apps, fetched, m).value;
    assert m'.Keys == m.Keys;
    assert forall a :: a in m ==> m'[a] == m[a];
    assert m' == m;
  }

  // ----- nothing silent, nothing due -----

  ghost predicate NobodySilent(spec: WindowSpec, now: Time, rows: seq<G.Placed>)
  {
    forall p :: p in rows ==> Sub(now, p.row.observedAt) <= OrDefault(spec.staleReportThresholdSeconds, 300)
  }

  lemma {:induction false} SilentListEmpty(spec: WindowSpec, now: Time, rows: seq<G.Placed>)
    ensures SilentIn(spec, now, rows) == [] <==> NobodySilent(spec, now, rows)
  {
    if rows != [] {
      var n := |rows| - 1;
      assert rows == rows[..n] + [rows[n]];
      SilentListEmpty(spec, now, rows[..n]);
    }
  }

  /** Every key that wants a refresh has used up its attempts, and says so, or is still waiting. */
  ghost predicate NoRetryDue(spec: WindowSpec, now: Time, rows: seq<G.Placed>, actions: map<string, ActionRecord>)
  {
    forall p :: p in rows && Refreshable(p.row.state) ==>
      var key := ActionKey(p.app, p.row.clusterName);
      && key in actions
      && if actions[key].attempts >= MaxAttempts(spec) then actions[key].result == ExhaustedRetries
         else actions[key].lastAttemptAt != ZERO_TIME && Sub(now, actions[key].lastAttemptAt) < Wait(spec)
  }

  lemma {:induction false} ActionsRest(spec: WindowSpec, now: Time, rows: seq<G.Placed>, actions: map<string,
                                       ActionRecord>)
    requires NoRetryDue(spec, now, rows, actions)
    ensures RunActions(spec, now, rows, actions) == actions
  {
    if rows != [] {
      var n := |rows| - 1;
      assert rows == rows[..n] + [rows[n]];
      ActionsRest(spec, now, rows[..n], actions);
      if Refreshable(rows[n].row.state) {
        assert rows[n] in rows;
        var key := ActionKey(rows[n].app, rows[n].row.clusterName);
        if actions[key].attempts >= MaxAttempts(spec) {
          assert actions[key].(result := ExhaustedRetries) == actions[key];
        }
      }
    }
  }

  // ----- validation -----

  lemma {:induction false} ResultsListedAt(spec: WindowSpec, hub: bool, order: seq<string>, states: map<string,
                                           AppState>, prev: seq<GateResult>, now: Time)
    ensures Listed(G.Results(spec, hub, order, states, prev, now))
    ensures forall i :: 0 <= i < |GATES| ==>
              G.Results(spec, hub, order, states, prev, now)[i]
              == GateResult(GATES[i], G.FinalVerdict(spec, hub, order, states, GATES[i]),
                            G.KeptObservedAt(prev, GATES[i], G.FinalVerdict(spec, hub, order, states, GATES[i]), now))
  {
  }

  lemma {:induction false} KeptIsSet(prev: seq<GateResult>, g: Gate, v: Verdict, now: Time)
    requires now != ZERO_TIME
    ensures G.KeptObservedAt(prev, g, v, now) != ZERO_TIME
  {
    if prev != [] && prev[0].gate != g {
      KeptIsSet(prev[1..], g, v, now);
    }
  }

  lemma {:induction false} ValidationRests(spec: WindowSpec, hub: bool, order: seq<string>, states: map<string,
                                           AppState>, prev: seq<GateResult>,
                        now: Time, later: Time)
    requires now > ZERO_TIME
    ensures var first := G.Evaluate(spec, hub, order, states, [], prev, now);
            G.Evaluate(spec, hub, order, states, [], first.gateResults, later) == first
  {
    var rs := G.Results(spec, hub, order, states, prev, now);
    var rs' := G.Results(spec, hub, order, states, rs, later);
    ResultsListedAt(spec, hub, order, states, prev, now);
    ResultsListedAt(spec, hub, order, states, rs, later);
    forall i | 0 <= i < |GATES| ensures rs'[i] == rs[i] {
      var v := G.FinalVerdict(spec, hub, order, states, GATES[i]);
      KeptIsSet(prev, GATES[i], v, now);
      assert rs[0..] == rs;
      KeptFromOwnResult(rs, 0, i, v, later);
    }
    assert rs' == rs;
  }

  // ----- the whole status -----

  predicate SameReads(a: Inputs, b: Inputs)
  {
    && a.fetched == b.fetched && a.hub == b.hub
    && a.baselineOrder == b.baselineOrder && a.silenceOrder == b.silenceOrder
    && a.actionOrder == b.actionOrder && a.gateOrder == b.gateOrder
  }

  predicate DeadlineAhead(spec: WindowSpec, st: Status, now: Time)
  {
    if st.phase == PlatformRecovering then
      st.stabilizationStartedAt.Some? && now < st.stabilizationStartedAt.value + Stabilization(spec)
    else now <= spec.endTime
  }

  ghost predicate NothingDue(spec: WindowSpec, st: Status, inp: Inputs)
  {
    && NobodySilent(spec, inp.now, G.Flatten(inp.silenceOrder, st.appStates))
    && NoRetryDue(spec, inp.now, G.Flatten(inp.actionOrder, st.appStates), st.actions)
    && !HeartbeatDue(st.lastReportedAt, inp.now)
    && DeadlineAhead(spec, st, inp.now)
  }

  lemma {:induction false} DecisionRests(spec: WindowSpec, now: Time, later: Time, previous: Phase, passed: bool,
                                         started: Option<Time>)
    requires now <= later
    requires var d := Decide(spec, now, previous, passed, started);
             && d.phase in {Executing, PlatformRecovering}
             && (if d.phase == PlatformRecovering then later < d.stabilizationStartedAt.value + Stabilization(spec)
                else later <= spec.endTime)
    ensures var d := Decide(spec, now, previous, passed, started);
            Decide(spec, later, d.phase, passed, d.stabilizationStartedAt) == d
  {
  }

  /** What the first of the two steps stored, field by field. */
  lemma {:induction false} FirstStep(env: Env, spec: WindowSpec, st: Status, a: Inputs)
    requires |a.fetched| == |spec.impactedApps| && a.now >= spec.startTime
    requires Reconcile(env, spec, st, a).Done?
    ensures var st' := Reconcile(env, spec, st, a).status;
            && Merge(spec.impactedApps, a.fetched, st.appStates) == Some(st'.appStates)
            && st'.baseline.Some?
            && st'.silent == SilentIn(spec, a.now, G.Flatten(a.silenceOrder, st'.appStates))
            && st'.validation == G.Evaluate(spec, a.hub, a.gateOrder, st'.appStates, st'.silent,
               st.validation.gateResults, a.now)
            && var previous := if st.baseline.None? then BaselineCaptured else st.phase;
               var d := Decide(spec, a.now, previous, st'.validation.passed, st.stabilizationStartedAt);
               st'.phase == d.phase && st'.overall == d.overall
                   && st'.stabilizationStartedAt == d.stabilizationStartedAt
  {
    var m := Merge(spec.impactedApps, a.fetched, st.appStates);
    assert Reconcile(env, spec, st, a) == Proceed(env, spec, st, m.value, a);
  }

  /** The second step observes exactly what the first one stored. */
  lemma {:induction false} SameObservation(env: Env, spec: WindowSpec, st: Status, a: Inputs, b: Inputs, st': Status)
    requires |a.fetched| == |spec.impactedApps| && a.now >= spec.startTime && ZERO_TIME < a.now <= b.now
    requires Reconcile(env, spec, st, a).Done? && st' == Reconcile(env, spec, st, a).status
    requires SameReads(a, b) && NothingDue(spec, st', b)
    ensures st'.baseline.Some? && st'.silent == []
    ensures Observe(env, spec, st', st'.appStates, b) == Observation(st'.baseline.value, [], st'.actions,
            st'.validation, st'.phase)
  {
    FirstStep(env, spec, st, a);
    var seen := G.Flatten(a.silenceOrder, st'.appStates);
    assert NobodySilent(spec, a.now, seen);
    SilentListEmpty(spec, a.now, seen);
    SilentListEmpty(spec, b.now, seen);
    ValidationRests(spec, a.hub, a.gateOrder, st'.appStates, st.validation.gateResults, a.now, b.now);
    ActionsRest(spec, b.now, G.Flatten(b.actionOrder, st'.appStates), st'.actions);
  }

  lemma {:induction false} SettleRests(env: Env, spec: WindowSpec, st: Status, inp: Inputs, obs: Observation)
    requires st.baseline.Some? && st.silent == []
    requires obs == Observation(st.baseline.value, [], st.actions, st.validation, st.phase)
    requires Decide(spec, inp.now, st.phase, st.validation.passed, st.stabilizationStartedAt)
          == Decision(st.phase, st.overall, st.stabilizationStartedAt)
    requires !Concluding(st.phase) && !HeartbeatDue(st.lastReportedAt, inp.now)
    ensures Settle(env, spec, st, inp, obs) == Done(st, false, false, None)
  {
    assert Adopt(st, obs) == st;
    assert Conclude(env, spec, st, inp) == st;
  }

  /** The decision the first step made is made again. */
  lemma {:induction false} SameDecision(env: Env, spec: WindowSpec, st: Status, a: Inputs, b: Inputs, st': Status)
    requires |a.fetched| == |spec.impactedApps| && a.now >= spec.startTime && a.now <= b.now
    requires Reconcile(env, spec, st, a).Done? && st' == Reconcile(env, spec, st, a).status
    requires st'.phase in {Executing, PlatformRecovering} && DeadlineAhead(spec, st', b.now)
    ensures Decide(spec, b.now, st'.phase, st'.validation.passed, st'.stabilizationStartedAt)
         == Decision(st'.phase, st'.overall, st'.stabilizationStartedAt)
  {
    FirstStep(env, spec, st, a);
    var previous := if st.baseline.None? then BaselineCaptured else st.phase;
    DecisionRests(spec, a.now, b.now, previous, st'.validation.passed, st.stabilizationStartedAt);
  }

  lemma {:induction false} QuietStep(env: Env, spec: WindowSpec, st: Status, inp: Inputs, obs: Observation)
    requires |inp.fetched| == |spec.impactedApps| && inp.now >= spec.startTime
    requires Merge(spec.impactedApps, inp.fetched, st.appStates) == Some(st.appStates)
    requires obs == Observe(env, spec, st, st.appStates, inp)
    requires Settle(env, spec, st, inp, obs) == Done(st, false, false, None)
    ensures Reconcile(env, spec, st, inp) == Done(st, false, false, None)
  {
    assert st.(appStates := st.appStates) == st;
  }

  /** A reconcile would find, observe and decide what is stored already. */
  ghost predicate AtRest(env: Env, spec: WindowSpec, st: Status, inp: Inputs)
  {
    && |inp.fetched| == |spec.impactedApps| && inp.now >= spec.startTime
    && Merge(spec.impactedApps, inp.fetched, st.appStates) == Some(st.appStates)
    && st.baseline.Some? && st.silent == []
    && Observe(env, spec, st, st.appStates, inp) == Observation(st.baseline.value, [], st.actions, st.validation,
       st.phase)
    && Decide(spec, inp.now, st.phase, st.validation.passed, st.stabilizationStartedAt)
       == Decision(st.phase, st.overall, st.stabilizationStartedAt)
    && !Concluding(st.phase) && !HeartbeatDue(st.lastReportedAt, inp.now)
  }

  lemma {:induction false} RestingStep(env: Env, spec: WindowSpec, st: Status, inp: Inputs)
    requires AtRest(env, spec, st, inp)
    ensures Reconcile(env, spec, st, inp) == Done(st, false, false, None)
  {
    var obs := Observation(st.baseline.value, [], st.actions, st.validation, st.phase);
    SettleRests(env, spec, st, inp, obs);
    QuietStep(env, spec, st, inp, obs);
  }

  lemma {:induction false} MergesAgain(env: Env, spec: WindowSpec, st: Status, a: Inputs, st': Status)
    requires |a.fetched| == |spec.impactedApps| && a.now >= spec.startTime
    requires Reconcile(env, spec, st, a).Done? && st' == Reconcile(env, spec, st, a).status
    ensures Merge(spec.impactedApps, a.fetched, st'.appStates) == Some(st'.appStates)
  {
    FirstStep(env, spec, st, a);
    MergeTwice(spec.impactedApps, a.fetched, st.appStates);
  }

  lemma {:induction false} ComesToRest(env: Env, spec: WindowSpec, st: Status, a: Inputs, b: Inputs, st': Status)
    requires |a.fetched| == |spec.impactedApps| && a.now >= spec.startTime && ZERO_TIME < a.now <= b.now
    requires Reconcile(env, spec, st, a).Done? && st' == Reconcile(env, spec, st, a).status
    requires st'.phase in {Executing, PlatformRecovering}
    requires SameReads(a, b) && NothingDue(spec, st', b)
    ensures AtRest(env, spec, st', b)
  {
    MergesAgain(env, spec, st, a, st');
    SameObservation(env, spec, st, a, b, st');
    SameDecision(env, spec, st, a, b, st');
  }

  /** A second reconcile with the same reads, nothing due and no deadline crossed stores nothing and reports nothing. */
  lemma {:induction false} RepeatIsQuiet(env: Env, spec: WindowSpec, st: Status, a: Inputs, b: Inputs, st': Status)
    requires |a.fetched| == |spec.impactedApps| && a.now >= spec.startTime && ZERO_TIME < a.now <= b.now
    requires Reconcile(env, spec, st, a).Done? && st' == Reconcile(env, spec, st, a).status
    requires st'.phase in {Executing, PlatformRecovering}
    requires SameReads(a, b) && NothingDue(spec, st', b)
    ensures Reconcile(env, spec, st', b) == Done(st', false, false, None)
  {
    ComesToRest(env, spec, st, a, b, st');
    RestingStep(env, spec, st', b);
  }
}
