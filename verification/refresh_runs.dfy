/**
 * Which stored steps trigger a parked refresh, and what the record of a key shows, over whole runs: a step triggers
 * exactly when it visits a row that wants a refresh, the maximum is not reached and the wait is over.
 */
module RefreshRuns {
  import opened Base
  import opened Model
  import opened Evidence
  import opened Window
  import opened Runs
  import G = Gates

  // ----- what is visited -----

  /** The row wants a refresh, and its record is kept under `key`. */
  predicate Wants(p: G.Placed, key: string)
  {
    (p.row.state.Diverged? || p.row.state.OutOfSyncRow?) && key == p.app + "/" + p.row.clusterName
  }

  /** How often the rows ask for a refresh of this key. */
  function Asked(rows: seq<G.Placed>, key: string): nat
  {
    if rows == [] then 0
    else Asked(rows[..|rows| - 1], key) + if Wants(rows[|rows| - 1], key) then 1 else 0
  }

  lemma {:induction false} AskedMeans(rows: seq<G.Placed>, key: string)
    ensures Asked(rows, key) > 0 <==> exists p :: p in rows && Wants(p, key)
  {
    if rows != [] {
      var n := |rows| - 1;
      assert rows == rows[..n] + [rows[n]];
      AskedMeans(rows[..n], key);
    }
  }

  function Maximum(spec: WindowSpec): nat { if spec.maxAttempts > 0 then spec.maxAttempts else 2 }

  function Interval(spec: WindowSpec): nat { if spec.waitBetweenSeconds > 0 then spec.waitBetweenSeconds else 180 }

  /** After attempts at these times, another one is due. */
  predicate Due(spec: WindowSpec, times: seq<Time>, now: Time)
  {
    |times| < Maximum(spec) && (times == [] || now - times[|times| - 1] >= Interval(spec))
  }

  // ----- what a record shows -----

  /** A record of attempts at these times, in this order. */
  ghost predicate Recounts(spec: WindowSpec, a: ActionRecord, key: string, times: seq<Time>, spent: bool)
  {
    && times != []
    && key == a.app + "/" + a.cluster
    && a.attempts == |times| && |a.history| == |times|
    && (forall i :: 0 <= i < |times| ==> a.history[i] == Attempt(i + 1, times[i]))
    && a.lastAttemptAt == times[|times| - 1] && a.nextEligibleAt == times[|times| - 1] + Interval(spec)
    && a.maxAttempts == Maximum(spec)
    && a.result == if spent then ExhaustedRetries else Parked
  }

  /** The records show attempts at these times for the key, and whether the retries are exhausted. */
  ghost predicate Shows(spec: WindowSpec, actions: map<string, ActionRecord>, key: string, times: seq<Time>,
                        spent: bool)
  {
    if times == [] then key !in actions && !spent else key in actions && Recounts(spec, actions[key], key, times, spent)
  }

  /** No attempt lies in the future. */
  ghost predicate Past(times: seq<Time>, now: Time)
  {
    now > ZERO_TIME && (times != [] ==> ZERO_TIME < times[|times| - 1] <= now)
  }

  lemma {:induction false} AttemptAppends(spec: WindowSpec, a: ActionRecord, key: string, times: seq<Time>, now: Time)
    requires Recounts(spec, a, key, times, false) && |times| < Maximum(spec)
    ensures Recounts(spec, a.(attempts := a.attempts + 1, lastAttemptAt := now, nextEligibleAt := now + Interval(spec),
                               result := Parked, history := a.history + [Attempt(a.attempts + 1, now)]),
                     key, times + [now], false)
  {
  }

  /** One visit. */
  lemma {:induction false} VisitShows(spec: WindowSpec, now: Time, p: G.Placed, actions: map<string, ActionRecord>,
                                      key: string, times: seq<Time>, spent: bool)
    requires Shows(spec, actions, key, times, spent) && Past(times, now) && (spent ==> |times| >= Maximum(spec))
    requires Wants(p, key)
    ensures Shows(spec, RunAction(spec, now, p.app, p.row, actions), key,
                  if Due(spec, times, now) then times + [now] else times, spent || |times| >= Maximum(spec))
  {
    if times != [] && Due(spec, times, now) {
      AttemptAppends(spec, actions[key], key, times, now);
    }
  }

  lemma {:induction false} OtherVisit(spec: WindowSpec, now: Time, p: G.Placed, actions: map<string, ActionRecord>,
                                      key: string)
    requires key != p.app + "/" + p.row.clusterName
    ensures var after := RunAction(spec, now, p.app, p.row, actions);
            (key in after <==> key in actions) && (key in after ==> after[key] == actions[key])
  {
  }

  /** The times after a step, and whether it finds the retries exhausted: one attempt at most, however often asked. */
  function Later(spec: WindowSpec, times: seq<Time>, now: Time, asked: nat): seq<Time>
  {
    if asked > 0 && Due(spec, times, now) then times + [now] else times
  }

  predicate Spends(spec: WindowSpec, times: seq<Time>, now: Time, asked: nat)
  {
    || (asked > 0 && |times| >= Maximum(spec))
    || (asked > 1 && |Later(spec, times, now, asked)| >= Maximum(spec))
  }

  /** One step, for one key. */
  lemma {:induction false} StepShows(spec: WindowSpec, now: Time, rows: seq<G.Placed>,
                                     actions: map<string, ActionRecord>, key: string, times: seq<Time>, spent: bool)
    requires Shows(spec, actions, key, times, spent) && Past(times, now) && (spent ==> |times| >= Maximum(spec))
    ensures Shows(spec, RunActions(spec, now, rows, actions), key, Later(spec, times, now, Asked(rows, key)),
                  spent || Spends(spec, times, now, Asked(rows, key)))
  {
    if rows != [] {
      var n := |rows| - 1;
      var p, rest := rows[n], RunActions(spec, now, rows[..n], actions);
      StepShows(spec, now, rows[..n], actions, key, times, spent);
      if Wants(p, key) {
        var asked := Asked(rows[..n], key);
        VisitShows(spec, now, p, rest, key, Later(spec, times, now, asked), spent || Spends(spec, times, now, asked));
      } else if Refreshable(p.row.state) {
        OtherVisit(spec, now, p, rest, key);
      }
    }
  }

  /** A key no visited row asks about keeps its record, or stays without one. */
  lemma {:induction false} UnaskedStays(spec: WindowSpec, now: Time, rows: seq<G.Placed>,
                                        actions: map<string, ActionRecord>, key: string)
    requires Asked(rows, key) == 0
    ensures var after := RunActions(spec, now, rows, actions);
            (key in after <==> key in actions) && (key in after ==> after[key] == actions[key])
  {
    if rows != [] {
      var n := |rows| - 1;
      UnaskedStays(spec, now, rows[..n], actions, key);
      if Refreshable(rows[n].row.state) {
        OtherVisit(spec, now, rows[n], RunActions(spec, now, rows[..n], actions), key);
      }
    }
  }

  // ----- whole runs -----

  /** The rows the refresh loop of a stored step ranged over. */
  function Visited(s: Step): seq<G.Placed> { G.Flatten(s.inputs.actionOrder, s.after.appStates) }

  /** The times at which the steps of a history triggered an attempt for the key. */
  function Triggers(spec: WindowSpec, h: seq<Step>, key: string): (times: seq<Time>)
    ensures |times| <= Maximum(spec)
  {
    if h == [] then []
    else
      var s := h[|h| - 1];
      Later(spec, Triggers(spec, h[..|h| - 1], key), s.inputs.now, Asked(Visited(s), key))
  }

  /** Step `n` asks for the key when the maximum is reached already, or reaches it and asks again. */
  ghost predicate SpentBy(spec: WindowSpec, h: seq<Step>, key: string, n: int)
  {
    0 <= n < |h| && Spends(spec, Triggers(spec, h[..n], key), h[n].inputs.now, Asked(Visited(h[n]), key))
  }

  ghost predicate Spent(spec: WindowSpec, h: seq<Step>, key: string)
  {
    exists n :: SpentBy(spec, h, key, n)
  }

  lemma {:induction false} SpentStep(spec: WindowSpec, h: seq<Step>, key: string)
    requires h != []
    ensures Spent(spec, h, key) <==> Spent(spec, h[..|h| - 1], key) || SpentBy(spec, h, key, |h| - 1)
  {
    var front := h[..|h| - 1];
    forall n | 0 <= n < |front| ensures SpentBy(spec, h, key, n) <==> SpentBy(spec, front, key, n) {
      assert front[..n] == h[..n];
    }
    if Spent(spec, front, key) {
      var n :| SpentBy(spec, front, key, n);
      assert SpentBy(spec, h, key, n);
    }
  }

  lemma {:induction false} VisitedRows(env: Env, spec: WindowSpec, prev: Option<Step>, s: Step)
    requires StepOk(env, spec, prev, s)
    ensures s.after.actions == RunActions(spec, s.inputs.now, Visited(s), s.before.actions)
    ensures s.inputs.now > ZERO_TIME
    ensures s.before.actions == if prev.None? then map[] else prev.value.after.actions
    ensures prev.Some? ==> prev.value.inputs.now <= s.inputs.now
  {
    var m := Merge(spec.impactedApps, s.inputs.fetched, s.before.appStates);
    assert Proceed(env, spec, s.before, m.value, s.inputs) == Done(s.after, s.attempted, s.reported, s.transition);
  }

  function Recorded(h: seq<Step>, n: nat): map<string, ActionRecord>
    requires n <= |h|
  {
    if n == 0 then map[] else h[n - 1].after.actions
  }

  /** Once the retries are exhausted, the maximum has been reached. */
  lemma {:induction false} SpentMeansMaximum(spec: WindowSpec, h: seq<Step>, key: string)
    requires Spent(spec, h, key)
    ensures |Triggers(spec, h, key)| >= Maximum(spec)
  {
    SpentStep(spec, h, key);
    if Spent(spec, h[..|h| - 1], key) {
      SpentMeansMaximum(spec, h[..|h| - 1], key);
    }
  }

  /** One more step tells one more thing. */
  lemma {:induction false} StepTells(spec: WindowSpec, front: seq<Step>, s: Step, actions: map<string, ActionRecord>,
                                     key: string)
    requires Shows(spec, actions, key, Triggers(spec, front, key), Spent(spec, front, key))
    requires Past(Triggers(spec, front, key), s.inputs.now)
    requires s.after.actions == RunActions(spec, s.inputs.now, Visited(s), actions)
    ensures Shows(spec, s.after.actions, key, Triggers(spec, front + [s], key), Spent(spec, front + [s], key))
  {
    var times, asked := Triggers(spec, front, key), Asked(Visited(s), key);
    var h := front + [s];
    assert h[..|h| - 1] == front && h[..|front|] == front && h[|h| - 1] == s;
    if Spent(spec, front, key) {
      SpentMeansMaximum(spec, front, key);
    }
    StepShows(spec, s.inputs.now, Visited(s), actions, key, times, Spent(spec, front, key));
    SpentStep(spec, h, key);
    assert SpentBy(spec, h, key, |front|) <==> Spends(spec, times, s.inputs.now, asked);
  }

  /** The records tell exactly the steps that triggered, and none of them lies in the future. */
  ghost predicate Tells(spec: WindowSpec, h: seq<Step>, key: string)
  {
    && Shows(spec, Recorded(h, |h|), key, Triggers(spec, h, key), Spent(spec, h, key))
    && (h != [] ==> Past(Triggers(spec, h, key), h[|h| - 1].inputs.now))
  }

  ghost function Telling(spec: WindowSpec, key: string): Claim
  {
    h => Tells(spec, h, key)
  }

  /** The times of a longer history. */
  lemma {:induction false} LaterArePast(spec: WindowSpec, times: seq<Time>, before: Time, now: Time, asked: nat)
    requires now > ZERO_TIME && (times == [] || (Past(times, before) && before <= now))
    ensures Past(times, now) && Past(Later(spec, times, now, asked), now)
  {
  }

  lemma {:induction false} StepKeepsTelling(env: Env, spec: WindowSpec, front: seq<Step>, s: Step, key: string)
    requires Tells(spec, front, key) && StepOk(env, spec, Last(front), s)
    ensures Tells(spec, front + [s], key)
  {
    VisitedRows(env, spec, Last(front), s);
    LaterArePast(spec, Triggers(spec, front, key), if front == [] then 0 else front[|front| - 1].inputs.now,
                 s.inputs.now, Asked(Visited(s), key));
    StepTells(spec, front, s, Recorded(front, |front|), key);
    assert (front + [s])[..|front|] == front;
  }

  lemma {:induction false} TellingCarries(env: Env, spec: WindowSpec, key: string)
    ensures Carries(Ok(env, spec), Telling(spec, key)) && Telling(spec, key)([])
  {
    forall g, s | Telling(spec, key)(g) && Ok(env, spec)(Last(g), s) ensures Telling(spec, key)(g + [s]) {
      StepKeepsTelling(env, spec, g, s, key);
    }
    NothingTold(spec, key);
  }

  lemma {:induction false} NothingTold(spec: WindowSpec, key: string)
    ensures Tells(spec, [], key)
  {
    var none: seq<Step> := [];
    assert forall n :: !SpentBy(spec, none, key, n);
    assert Triggers(spec, none, key) == [] && !Spent(spec, none, key);
  }

  /** After the first `n` steps, the record of every key tells exactly the steps that triggered. */
  lemma {:induction false} RecordsTell(env: Env, spec: WindowSpec, h: seq<Step>, n: nat, key: string)
    requires IsHistory(env, spec, h) && n <= |h|
    ensures Shows(spec, Recorded(h, n), key, Triggers(spec, h[..n], key), Spent(spec, h[..n], key))
  {
    TellingCarries(env, spec, key);
    ClaimHolds(h, n, Ok(env, spec), Telling(spec, key));
    assert Telling(spec, key)(h[..n]);
    assert Recorded(h[..n], n) == Recorded(h, n);
  }

  /**
   * Over any run, for every application and cluster: the stored record lists one attempt for each stored step that
   * visited a row wanting a refresh when one was due, at that step's time, numbered in order. There is no record as
   * long as there was no such step. It says ExhaustedRetries exactly if a refresh was asked for beyond the maximum.
   */
  lemma {:induction false} RefreshesExactly(env: Env, spec: WindowSpec, evs: seq<Event>, h: seq<Step>, st: Status,
                                            key: string)
    requires WellFormed(spec, evs) && h == History(env, spec, evs) && st == After(env, spec, evs)
    ensures Shows(spec, st.actions, key, Triggers(spec, h, key), Spent(spec, h, key))
  {
    RunsAreHistories(env, spec, evs);
    RecordsTell(env, spec, h, |h|, key);
    assert h[..|h|] == h;
  }

  /** Step `n` triggers exactly when it visits a row that wants a refresh and one is due. */
  lemma {:induction false} TriggersExactly(spec: WindowSpec, h: seq<Step>, key: string, n: nat)
    requires n < |h|
    ensures var before, after := Triggers(spec, h[..n], key), Triggers(spec, h[..n + 1], key);
            if (exists p :: p in Visited(h[n]) && Wants(p, key)) && Due(spec, before, h[n].inputs.now)
            then after == before + [h[n].inputs.now] else after == before
  {
    AskedMeans(Visited(h[n]), key);
    assert h[..n + 1][..n] == h[..n];
  }

  /** A refresh that is asked for in a stored step has a record from then on. */
  lemma {:induction false} AskedIsRecorded(env: Env, spec: WindowSpec, h: seq<Step>, n: nat, p: G.Placed)
    requires IsHistory(env, spec, h) && n < |h|
    requires p in Visited(h[n]) && Wants(p, p.app + "/" + p.row.clusterName)
    ensures p.app + "/" + p.row.clusterName in h[n].after.actions
  {
    var key := p.app + "/" + p.row.clusterName;
    RecordsTell(env, spec, h, n + 1, key);
    TriggersExactly(spec, h, key, n);
    assert Due(spec, [], h[n].inputs.now);
  }
}
