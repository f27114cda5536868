/** When reports are published, over whole runs. */
module Reports {
  import opened Base
  import opened Model
  import opened Evidence
  import opened Window
  import opened Runs

  /** A report nothing but the heartbeat asked for. */
  predicate HeartbeatOnly(s: Step)
  {
    s.reported && s.transition.None? && s.before.validation == s.after.validation
  }

  function Heartbeats(h: seq<Step>): nat
  {
    if h == [] then 0
    else
      var n := |h| - 1;
      Heartbeats(h[..n]) + if HeartbeatOnly(h[n]) then 1 else 0
  }

  /** The last step among the first `n` that published. */
  function LastPublished(h: seq<Step>, n: nat): (k: Option<nat>)
    requires n <= |h|
    ensures k.Some? ==> k.value < n && h[k.value].reported
    ensures forall j :: (if k.None? then 0 else k.value + 1) <= j < n ==> !h[j].reported
  {
    if n == 0 then None else if h[n - 1].reported then Some(n - 1) else LastPublished(h, n - 1)
  }

  /** `LastReportedAt` is the time of the last stored step that published; a failed publish does not move it. */
  lemma {:induction false} LastReportedAtMeaning(env: Env, spec: WindowSpec, h: seq<Step>, n: nat)
    requires IsHistory(env, spec, h) && n < |h|
    ensures var k := LastPublished(h, n + 1);
            h[n].after.lastReportedAt == if k.None? then ZERO_TIME else h[k.value].inputs.now
  {
    Shapes(env, spec, h);
    assert Shape(env, spec, Before(h, n), h[n]);
    if n > 0 {
      LastReportedAtMeaning(env, spec, h, n - 1);
    }
  }

  /** Every stored change of phase or validation is attempted in its own step; every publish that works is recorded. */
  lemma {:induction false} ChangesAreReported(env: Env, spec: WindowSpec, h: seq<Step>, n: nat)
    requires IsHistory(env, spec, h) && n < |h|
    requires n == 0 || h[n].after.phase != h[n - 1].after.phase || h[n].after.validation != h[n - 1].after.validation
    ensures h[n].attempted
    ensures h[n].reported <==> h[n].inputs.publishWorks
    ensures h[n].inputs.publishWorks ==> h[n].after.lastReportedAt == h[n].inputs.now
  {
    TransitionFacts(env, spec, h, n);
    Shapes(env, spec, h);
    assert Shape(env, spec, Before(h, n), h[n]);
  }

  /** While publishing works, no stored step is 15 minutes away from the last report. */
  lemma {:induction false} NeverSilentForLong(env: Env, spec: WindowSpec, h: seq<Step>, n: nat)
    requires IsHistory(env, spec, h) && n < |h|
    requires forall i :: 0 <= i <= n ==> h[i].inputs.publishWorks
    ensures ZERO_TIME < h[n].after.lastReportedAt <= h[n].inputs.now
    ensures h[n].inputs.now - h[n].after.lastReportedAt < 15 * 60
  {
    TransitionFacts(env, spec, h, n);
    Shapes(env, spec, h);
    assert Shape(env, spec, Before(h, n), h[n]);
    if n > 0 {
      NeverSilentForLong(env, spec, h, n - 1);
    }
  }

  lemma {:induction false} HeartbeatSpacing(env: Env, spec: WindowSpec, h: seq<Step>)
    requires IsHistory(env, spec, h) && h != []
    ensures var last := h[|h| - 1];
            && last.after.lastReportedAt <= last.inputs.now
            && (last.after.lastReportedAt == ZERO_TIME ==> Heartbeats(h) == 0)
            && (last.after.lastReportedAt != ZERO_TIME ==>
                  h[0].inputs.now + HEARTBEAT_SECONDS * Heartbeats(h) <= last.after.lastReportedAt)
  {
    var n := |h| - 1;
    Shapes(env, spec, h);
    assert Shape(env, spec, Before(h, n), h[n]);
    ClockRuns(env, spec, h, 0, n);
    if n > 0 {
      Prefix(env, spec, h, n);
      HeartbeatSpacing(env, spec, h[..n]);
      assert h[..n][n - 1] == h[n - 1];
    } else {
      assert h[..0] == [];
    }
  }

  /** Heartbeat-only reports are throttled to one in 15 minutes, in every run and whatever publishes fail. */
  lemma {:induction false} HeartbeatThrottle(env: Env, spec: WindowSpec, h: seq<Step>)
    requires IsHistory(env, spec, h) && h != []
    ensures Heartbeats(h) <= (h[|h| - 1].inputs.now - h[0].inputs.now) / (15 * 60)
  {
    HeartbeatSpacing(env, spec, h);
    ClockRuns(env, spec, h, 0, |h| - 1);
  }
}
