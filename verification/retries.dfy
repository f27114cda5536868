/** The retry discipline of the parked hard refresh over whole runs. */
module Retries {
  import opened Base
  import opened Model
  import opened Evidence
  import opened Window
  import opened Runs
  import G = Gates

  /** A record as every run leaves it: numbered attempts, spaced by the wait, never more than the maximum. */
  ghost predicate RecordOk(spec: WindowSpec, now: Time, key: string, a: ActionRecord)
  {
    && key == ActionKey(a.app, a.cluster)
    && 1 <= a.attempts <= MaxAttempts(spec)
    && |a.history| == a.attempts
    && (forall i :: 0 <= i < |a.history| ==> a.history[i].number == i + 1)
    && (forall i :: 0 < i < |a.history| ==> a.history[i].triggeredAt - a.history[i - 1].triggeredAt >= Wait(spec))
    && spec.startTime <= a.history[0].triggeredAt
    && ZERO_TIME < a.lastAttemptAt == a.history[|a.history| - 1].triggeredAt <= now
    && a.nextEligibleAt == a.lastAttemptAt + Wait(spec)
    && (a.result == Parked || (a.result == ExhaustedRetries && a.attempts == MaxAttempts(spec)))
  }

  ghost predicate RecordsOk(spec: WindowSpec, now: Time, actions: map<string, ActionRecord>)
  {
    forall k :: k in actions ==> RecordOk(spec, now, k, actions[k])
  }

  /** One more attempt, due and within the maximum, keeps a record well formed. */
  lemma {:induction false} AttemptKeeps(spec: WindowSpec, now: Time, key: string, a: ActionRecord)
    requires RecordOk(spec, now, key, a) && a.attempts < MaxAttempts(spec) && Sub(now, a.lastAttemptAt) >= Wait(spec)
    ensures RecordOk(spec, now, key,
                     a.(attempts := a.attempts + 1, lastAttemptAt := now, nextEligibleAt := now + Wait(spec),
                         result := Parked,
                        history := a.history + [Attempt(a.attempts + 1, now)]))
  {
  }

  lemma {:induction false} ActionKeeps(spec: WindowSpec, now: Time, app: string, row: Row, actions: map<string,
                                       ActionRecord>)
    requires RecordsOk(spec, now, actions)
    requires now >= spec.startTime && now > ZERO_TIME && Refreshable(row.state)
    ensures RecordsOk(spec, now, RunAction(spec, now, app, row, actions))
  {
    var key := ActionKey(app, row.clusterName);
    if key in actions && actions[key].attempts < MaxAttempts(spec)
        && Sub(now, actions[key].lastAttemptAt) >= Wait(spec) {
      AttemptKeeps(spec, now, key, actions[key]);
    }
  }

  lemma {:induction false} ActionsKeep(spec: WindowSpec, now: Time, rows: seq<G.Placed>, actions: map<string,
                                       ActionRecord>)
    requires RecordsOk(spec, now, actions)
    requires now >= spec.startTime && now > ZERO_TIME
    ensures RecordsOk(spec, now, RunActions(spec, now, rows, actions))
  {
    if rows != [] {
      var n := |rows| - 1;
      ActionsKeep(spec, now, rows[..n], actions);
      if Refreshable(rows[n].row.state) {
        ActionKeeps(spec, now, rows[n].app, rows[n].row, RunActions(spec, now, rows[..n], actions));
      }
    }
  }

  /** The rows the refresh loop of a stored step ranged over. */
  lemma {:induction false} ActionFacts(env: Env, spec: WindowSpec, prev: Option<Step>, s: Step)
    returns (rows: seq<G.Placed>)
    requires StepOk(env, spec, prev, s)
    ensures s.after.actions == RunActions(spec, s.inputs.now, rows, s.before.actions)
  {
    var m := Merge(spec.impactedApps, s.inputs.fetched, s.before.appStates);
    assert Proceed(env, spec, s.before, m.value, s.inputs) == Done(s.after, s.attempted, s.reported, s.transition);
    rows := G.Flatten(s.inputs.actionOrder, m.value);
  }

  lemma {:induction false} StoredRecords(env: Env, spec: WindowSpec, h: seq<Step>, n: nat)
    requires IsHistory(env, spec, h) && n < |h|
    ensures RecordsOk(spec, h[n].inputs.now, h[n].after.actions)
    decreases n
  {
    Shapes(env, spec, h);
    assert Shape(env, spec, Before(h, n), h[n]);
    if n > 0 {
      StoredRecords(env, spec, h, n - 1);
      forall k | k in h[n].before.actions ensures RecordOk(spec, h[n].inputs.now, k, h[n].before.actions[k]) {
        assert RecordOk(spec, h[n - 1].inputs.now, k, h[n].before.actions[k]);
      }
    }
    HistoryStep(env, spec, h, n);
    var rows := ActionFacts(env, spec, Before(h, n), h[n]);
    ActionsKeep(spec, h[n].inputs.now, rows, h[n].before.actions);
  }

  lemma {:induction false} HistorySpan(spec: WindowSpec, now: Time, key: string, a: ActionRecord, i: nat)
    requires RecordOk(spec, now, key, a) && i < |a.history|
    ensures i * Wait(spec) <= a.history[i].triggeredAt - a.history[0].triggeredAt
  {
    if i > 0 {
      HistorySpan(spec, now, key, a, i - 1);
      assert i * Wait(spec) == (i - 1) * Wait(spec) + Wait(spec);
    }
  }

  /** Over any history, however often a cluster shows up in one step: no key is retried too often or too soon. */
  lemma {:induction false} RetriesOfHistory(env: Env, spec: WindowSpec, h: seq<Step>, key: string, now: Time)
    requires IsHistory(env, spec, h) && h != []
    requires key in h[|h| - 1].after.actions && h[|h| - 1].inputs.now <= now
    ensures var a := h[|h| - 1].after.actions[key];
            && RecordOk(spec, now, key, a)
            && (a.attempts - 1) * Wait(spec) <= now - a.history[0].triggeredAt
            && (a.attempts - 1) * Wait(spec) <= now - spec.startTime
  {
    StoredRecords(env, spec, h, |h| - 1);
    var a := h[|h| - 1].after.actions[key];
    assert RecordOk(spec, h[|h| - 1].inputs.now, key, a);
    HistorySpan(spec, now, key, a, |a.history| - 1);
  }

  lemma {:induction false} RetriesReflected(env: Env, spec: WindowSpec, evs: seq<Event>, h: seq<Step>, st: Status,
                                            key: string, now: Time)
    requires Reflects(env, spec, evs, h, st)
    requires key in st.actions && evs != [] && evs[|evs| - 1].inputs.now <= now
    ensures RecordOk(spec, now, key, st.actions[key])
    ensures (st.actions[key].attempts - 1) * Wait(spec) <= now - spec.startTime
  {
    assert h != [];
    RetriesOfHistory(env, spec, h, key, now);
  }

  /**
   * The same for the stored status of any run: at most the maximum, at most one attempt more than waits have elapsed.
   */
  lemma {:induction false} RetryBound(env: Env, spec: WindowSpec, evs: seq<Event>, st: Status, key: string, now: Time)
    requires WellFormed(spec, evs) && st == After(env, spec, evs)
    requires key in st.actions && evs != [] && evs[|evs| - 1].inputs.now <= now
    ensures RecordOk(spec, now, key, st.actions[key])
    ensures (st.actions[key].attempts - 1) * Wait(spec) <= now - spec.startTime
  {
    RunsAreHistories(env, spec, evs);
    RetriesReflected(env, spec, evs, History(env, spec, evs), st, key, now);
  }
}
