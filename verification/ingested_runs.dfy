/** What becomes of the windows the consumer creates: the event sets no stabilization period and no retry limits. */
module IngestedRuns {
  import opened Base
  import opened Model
  import opened Evidence
  import I = Ingest
  import R = Runs
  import RT = RunTheorems
  import RR = RefreshRuns

  /**
   * A window from any run of the consumer, followed through any history of its own, concludes Succeeded in every stored
   * step that passes and in no other: there is no stabilization period to wait for.
   */
  lemma {:induction false} IngestedSucceedsAtOnce(env: Env, cluster: string, log: seq<I.Message>, os: seq<I.Outcome>,
                                                  name: string, spec: WindowSpec, h: seq<R.Step>, n: nat)
    requires var store := I.Run(cluster, log, I.START, os).store; name in store && store[name] == spec
    requires R.IsHistory(env, spec, h) && n < |h|
    ensures h[n].after.phase == Succeeded <==> h[n].after.validation.passed
    ensures h[n].after.phase != PlatformRecovering
  {
    var k := I.StoredWereAskedFor(cluster, log, os, I.Run(cluster, log, I.START, os), name);
    RT.PhaseAndOverall(env, spec, h, n);
    if h[n].after.validation.passed {
      R.ClockRuns(env, spec, h, RT.BlockStart(h, n), n);
    }
  }

  /** Each of its clusters is retried at most twice, three minutes apart. */
  lemma {:induction false} IngestedRetries(cluster: string, log: seq<I.Message>, os: seq<I.Outcome>, name: string,
                                           spec: WindowSpec)
    requires var store := I.Run(cluster, log, I.START, os).store; name in store && store[name] == spec
    ensures RR.Maximum(spec) == 2 && RR.Interval(spec) == 180
  {
    var k := I.StoredWereAskedFor(cluster, log, os, I.Run(cluster, log, I.START, os), name);
  }
}
