/** Gate timestamps do not change while a gate keeps saying the same. */
module Quiescence {
  import opened Base
  import opened Model
  import opened Evidence
  import opened Window
  import opened Runs
  import G = Gates

  // ----- gate timestamps -----

  ghost predicate Listed(rs: seq<GateResult>)
  {
    |rs| == |GATES| && forall i :: 0 <= i < |GATES| ==> rs[i].gate == GATES[i]
  }

  lemma {:induction false} GatesDistinct(i: nat, j: nat)
    requires i < |GATES| && j < |GATES| && GATES[i] == GATES[j]
    ensures i == j
  {
  }

  /** A lookup by gate name finds the gate's own previous result. */
  lemma {:induction false} KeptFromOwnResult(prev: seq<GateResult>, from: nat, i: nat, v: Verdict, now: Time)
    requires Listed(prev) && from <= i < |GATES|
    ensures G.KeptObservedAt(prev[from..], GATES[i], v, now)
         == if prev[i].verdict == v && prev[i].observedAt != ZERO_TIME then prev[i].observedAt else now
    decreases i - from
  {
    if from < i {
      if prev[from].gate == GATES[i] {
        GatesDistinct(from, i);
      }
      assert prev[from..][1..] == prev[from + 1..];
      KeptFromOwnResult(prev, from + 1, i, v, now);
    }
  }

  /** The gate results of a stored step: all gates in order, timestamps kept or renewed. */
  lemma {:induction false} GateFacts(env: Env, spec: WindowSpec, prev: Option<Step>, s: Step)
    requires StepOk(env, spec, prev, s)
    ensures Listed(s.after.validation.gateResults)
    ensures forall i :: 0 <= i < |GATES| ==>
              var r := s.after.validation.gateResults[i];
              r.observedAt == G.KeptObservedAt(s.before.validation.gateResults, GATES[i], r.verdict, s.inputs.now)
  {
    var m := Merge(spec.impactedApps, s.inputs.fetched, s.before.appStates).value;
    assert Proceed(env, spec, s.before, m, s.inputs) == Done(s.after, s.attempted, s.reported, s.transition);
    var rs := G.Results(spec, s.inputs.hub, s.inputs.gateOrder, m, s.before.validation.gateResults, s.inputs.now);
    assert s.after.validation.gateResults == rs;
    forall i | 0 <= i < |GATES|
      ensures rs[i].gate == GATES[i]
      ensures rs[i].observedAt == G.KeptObservedAt(s.before.validation.gateResults, GATES[i], rs[i].verdict,
              s.inputs.now)
    {
      assert rs[i] == G.ResultFor(spec, s.inputs.hub, s.inputs.gateOrder, m, s.before.validation.gateResults,
             s.inputs.now, GATES[i]);
    }
  }

  function ResultsAt(h: seq<Step>, n: nat): seq<GateResult>
    requires n < |h|
  {
    h[n].after.validation.gateResults
  }

  /** The first step of the unbroken stretch, ending at `n`, of stored steps in which gate `i` said the same. */
  ghost function StretchStart(h: seq<Step>, i: nat, n: nat): (k: nat)
    requires n < |h| && forall m :: 0 <= m <= n ==> i < |ResultsAt(h, m)|
    ensures k <= n
    ensures forall j :: k <= j <= n ==> ResultsAt(h, j)[i].verdict == ResultsAt(h, n)[i].verdict
    ensures k == 0 || ResultsAt(h, k - 1)[i].verdict != ResultsAt(h, n)[i].verdict
  {
    if n == 0 || ResultsAt(h, n - 1)[i].verdict != ResultsAt(h, n)[i].verdict then n else StretchStart(h, i, n - 1)
  }

  function Earlier(h: seq<Step>, n: nat): seq<GateResult>
    requires n < |h|
  {
    if n == 0 then [] else ResultsAt(h, n - 1)
  }

  /** Every stored step lists all gates; a timestamp is kept from the step before or set to this one's time. */
  lemma {:induction false} GatesAt(env: Env, spec: WindowSpec, h: seq<Step>, n: nat)
    requires IsHistory(env, spec, h) && n < |h|
    ensures Listed(ResultsAt(h, n)) && h[n].inputs.now > ZERO_TIME
    ensures forall i :: 0 <= i < |GATES| ==>
              ResultsAt(h, n)[i].observedAt == G.KeptObservedAt(Earlier(h, n), GATES[i], ResultsAt(h, n)[i].verdict,
                  h[n].inputs.now)
  {
    HistoryStep(env, spec, h, n);
    GateFacts(env, spec, Before(h, n), h[n]);
    assert h[n].before.validation.gateResults == Earlier(h, n);
  }

  /** Step `n` keeps the timestamp of gate `i` if the verdict is unchanged, and sets it to its own time otherwise. */
  ghost predicate Renews(h: seq<Step>, i: nat, n: nat)
    requires n < |h| && i < |GATES|
  {
    && Listed(ResultsAt(h, n)) && (n > 0 ==> Listed(ResultsAt(h, n - 1)))
    && h[n].inputs.now > ZERO_TIME
    && ResultsAt(h, n)[i].observedAt ==
         if n > 0 && ResultsAt(h, n - 1)[i].verdict == ResultsAt(h, n)[i].verdict
             && ResultsAt(h, n - 1)[i].observedAt != ZERO_TIME
         then ResultsAt(h, n - 1)[i].observedAt else h[n].inputs.now
  }

  lemma {:induction false} KeptOrRenewed(env: Env, spec: WindowSpec, h: seq<Step>, i: nat, n: nat)
    requires IsHistory(env, spec, h) && n < |h| && i < |GATES|
    ensures Renews(h, i, n)
  {
    GatesAt(env, spec, h, n);
    if n > 0 {
      GatesAt(env, spec, h, n - 1);
      var prev := ResultsAt(h, n - 1);
      assert prev[0..] == prev;
      KeptFromOwnResult(prev, 0, i, ResultsAt(h, n)[i].verdict, h[n].inputs.now);
    }
  }

  lemma {:induction false} StretchClock(h: seq<Step>, i: nat, n: nat)
    requires n < |h| && i < |GATES| && forall m :: 0 <= m <= n ==> Renews(h, i, m)
    ensures forall m :: 0 <= m <= n ==> i < |ResultsAt(h, m)|
    ensures ResultsAt(h, n)[i].observedAt == h[StretchStart(h, i, n)].inputs.now
  {
    assert Renews(h, i, n);
    if n > 0 {
      StretchClock(h, i, n - 1);
      assert Renews(h, i, StretchStart(h, i, n - 1));
    }
  }

  /** A gate's ObservedAt is the time of the first stored step in the current unbroken stretch of the same verdict. */
  lemma {:induction false} ObservedAtMeaning(env: Env, spec: WindowSpec, h: seq<Step>, i: nat, n: nat)
    requires IsHistory(env, spec, h) && n < |h| && i < |GATES|
    ensures forall m :: 0 <= m <= n ==> i < |ResultsAt(h, m)|
    ensures ResultsAt(h, n)[i].observedAt == h[StretchStart(h, i, n)].inputs.now
  {
    forall m | 0 <= m <= n ensures Renews(h, i, m) {
      KeptOrRenewed(env, spec, h, i, m);
    }
    StretchClock(h, i, n);
  }
}
