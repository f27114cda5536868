/** What a reconcile notes of the rows it ranges over: who is silent and how, and what the baseline shows. */
module Observations {
  import opened Base
  import opened Model
  import opened Evidence
  import opened Window
  import opened Runs
  import G = Gates
  import RT = RunTheorems

  // ----- silence -----

  function Tolerated(spec: WindowSpec): nat
  {
    if spec.staleReportThresholdSeconds > 0 then spec.staleReportThresholdSeconds else 300
  }

  /**
   * The row has been silent for longer than tolerated, and this is its entry: it went silent during the window if a
   * report was seen or observed since the start, and before the window otherwise.
   */
  predicate SilentRow(spec: WindowSpec, now: Time, p: G.Placed, c: SilentCluster)
  {
    && now - p.row.observedAt > Tolerated(spec)
    && c.app == p.app && c.cluster == p.row.clusterName && c.lastSeenAt == p.row.observedAt
    && c.silentForSeconds == (if now - p.row.observedAt > MAX_DURATION then MAX_DURATION else now - p.row.observedAt)
    && (c.silence.WentSilentDuringChg? <==> p.row.sawReportSinceChgStart || spec.startTime <= p.row.observedAt)
  }

  function SilentRows(spec: WindowSpec, now: Time, rows: seq<G.Placed>): nat
  {
    if rows == [] then 0
    else SilentRows(spec, now, rows[..|rows| - 1])
         + if now - rows[|rows| - 1].row.observedAt > Tolerated(spec) then 1 else 0
  }

  lemma {:induction false} ClassifyMeaning(spec: WindowSpec, now: Time, p: G.Placed, c: SilentCluster)
    ensures Window.Classify(spec, now, p) == Some(c) <==> SilentRow(spec, now, p, c)
    ensures Window.Classify(spec, now, p).Some? <==> now - p.row.observedAt > Tolerated(spec)
  {
    var cl := Window.Classify(spec, now, p);
    if cl.Some? {
      assert SilentRow(spec, now, p, c) <==> cl.value == c;
    }
  }

  /** The list has an entry for every silent row and no others. */
  lemma {:induction false} SilenceMeaning(spec: WindowSpec, now: Time, rows: seq<G.Placed>, c: SilentCluster)
    ensures c in SilentIn(spec, now, rows) <==> exists p :: p in rows && SilentRow(spec, now, p, c)
    ensures |SilentIn(spec, now, rows)| == SilentRows(spec, now, rows)
  {
    if rows != [] {
      var n := |rows| - 1;
      assert rows == rows[..n] + [rows[n]];
      SilenceMeaning(spec, now, rows[..n], c);
      ClassifyMeaning(spec, now, rows[n], c);
    }
  }

  // ----- the baseline -----

  /** The row makes a platform version known. */
  predicate Known(p: G.Placed)
  {
    p.row.platform.clusterVersion.version != "" || p.row.platform.kubeVirt.observedVersion != ""
  }

  /** The baseline is taken from the first `k` rows: up to the first that makes a version known, or all of them. */
  predicate TakenFrom(rows: seq<G.Placed>, k: nat)
  {
    && k <= |rows|
    && (forall i :: 0 <= i < k - 1 ==> !Known(rows[i]))
    && (k < |rows| ==> k > 0 && Known(rows[k - 1]))
  }

  datatype Field = ClusterVersionField | KubeVirtField | CdiField | SspField | OperatorDigest | PoolHash

  function Value(b: Baseline, f: Field): string
  {
    match f
    case ClusterVersionField => b.clusterVersion
    case KubeVirtField => b.kubeVirtVersion
    case CdiField => b.cdiVersion
    case SspField => b.sspVersion
    case OperatorDigest => b.clusterOperatorDigest
    case PoolHash => b.machineConfigPoolHash
  }

  function Text(s: string): Option<string> { if s == "" then None else Some(s) }

  /** What a row's platform shows of a baseline field, if anything. */
  type Showing = Platform -> Option<string>

  function ShowingOf(env: Env, f: Field): Showing
  {
    (po: Platform) =>
      match f
      case ClusterVersionField => Text(po.clusterVersion.version)
      case KubeVirtField => Text(po.kubeVirt.observedVersion)
      case CdiField => Text(po.cdi.observedVersion)
      case SspField => Text(po.ssp.observedVersion)
      case OperatorDigest => if po.operators == [] then None else Some(env.operatorDigest(po.operators))
      case PoolHash => if po.pools == [] then None else Some(env.poolDigest(po.pools))
  }

  /** Row `i` shows `text` and no later row shows anything; or no row shows anything and `text` is empty. */
  ghost predicate ShownLast(rows: seq<G.Placed>, show: Showing, text: string)
  {
    if exists i :: 0 <= i < |rows| && show(rows[i].row.platform).Some? then
      exists i :: 0 <= i < |rows| && show(rows[i].row.platform) == Some(text)
                  && forall j :: i < j < |rows| ==> show(rows[j].row.platform).None?
    else text == ""
  }

  /** Field by field, the baseline shows the last thing these rows have to show. */
  ghost predicate Portrays(env: Env, b: Baseline, rows: seq<G.Placed>, now: Time)
  {
    b.capturedAt == now && forall f: Field :: ShownLast(rows, ShowingOf(env, f), Value(b, f))
  }

  /** The same field after one more row. */
  lemma {:induction false} ShownNext(rows: seq<G.Placed>, p: G.Placed, show: Showing, text: string, text': string)
    requires ShownLast(rows, show, text)
    requires text' == if show(p.row.platform).Some? then show(p.row.platform).value else text
    ensures ShownLast(rows + [p], show, text')
  {
    var more := rows + [p];
    assert more[|rows|] == p;
    if show(p.row.platform).Some? {
      assert show(more[|rows|].row.platform) == Some(text');
    } else if exists i :: 0 <= i < |rows| && show(rows[i].row.platform).Some? {
      var i :| 0 <= i < |rows| && show(rows[i].row.platform) == Some(text)
               && forall j :: i < j < |rows| ==> show(rows[j].row.platform).None?;
      assert show(more[i].row.platform) == Some(text);
    }
  }

  /** One row after the other, whatever they make known. */
  function AbsorbAll(env: Env, b: Baseline, rows: seq<G.Placed>): Baseline
  {
    if rows == [] then b
    else Absorb(env, AbsorbAll(env, b, rows[..|rows| - 1]), rows[|rows| - 1].row.platform)
  }

  const NOTHING_KNOWN := Baseline(ZERO_TIME, "", "", "", "", "", "")

  /** Absorbing a row replaces a field by what the row shows of it, if anything. */
  lemma {:induction false} AbsorbField(env: Env, b: Baseline, po: Platform, f: Field)
    ensures var shown := ShowingOf(env, f)(po);
            Value(Absorb(env, b, po), f) == if shown.Some? then shown.value else Value(b, f)
  {
    var b', shown := Absorb(env, b, po), ShowingOf(env, f)(po);
    match f {
      case ClusterVersionField =>
        assert shown == Text(po.clusterVersion.version);
        assert Value(b', f) == Newer(po.clusterVersion.version, b.clusterVersion);
      case KubeVirtField =>
        assert shown == Text(po.kubeVirt.observedVersion);
        assert Value(b', f) == Newer(po.kubeVirt.observedVersion, b.kubeVirtVersion);
      case CdiField =>
        assert shown == Text(po.cdi.observedVersion);
        assert Value(b', f) == Newer(po.cdi.observedVersion, b.cdiVersion);
      case SspField =>
        assert shown == Text(po.ssp.observedVersion);
        assert Value(b', f) == Newer(po.ssp.observedVersion, b.sspVersion);
      case OperatorDigest =>
        assert shown == if po.operators == [] then None else Some(env.operatorDigest(po.operators));
      case PoolHash =>
        assert shown == if po.pools == [] then None else Some(env.poolDigest(po.pools));
    }
  }

  lemma {:induction false} FieldShownLast(env: Env, b: Baseline, rows: seq<G.Placed>, f: Field)
    requires Value(b, f) == ""
    ensures ShownLast(rows, ShowingOf(env, f), Value(AbsorbAll(env, b, rows), f))
  {
    if rows != [] {
      var n := |rows| - 1;
      FieldShownLast(env, b, rows[..n], f);
      AbsorbField(env, AbsorbAll(env, b, rows[..n]), rows[n].row.platform, f);
      ShownNext(rows[..n], rows[n], ShowingOf(env, f), Value(AbsorbAll(env, b, rows[..n]), f),
                Value(AbsorbAll(env, b, rows), f));
      assert rows[..n] + [rows[n]] == rows;
    }
  }

  lemma {:induction false} CapturedAtStays(env: Env, b: Baseline, rows: seq<G.Placed>)
    ensures AbsorbAll(env, b, rows).capturedAt == b.capturedAt
  {
    if rows != [] {
      CapturedAtStays(env, b, rows[..|rows| - 1]);
    }
  }

  lemma {:induction false} AbsorbAllPortrays(env: Env, rows: seq<G.Placed>, now: Time)
    ensures Portrays(env, AbsorbAll(env, NOTHING_KNOWN.(capturedAt := now), rows), rows, now)
  {
    var b := NOTHING_KNOWN.(capturedAt := now);
    CapturedAtStays(env, b, rows);
    forall f: Field ensures ShownLast(rows, ShowingOf(env, f), Value(AbsorbAll(env, b, rows), f)) {
      FieldShownLast(env, b, rows, f);
    }
  }

  lemma {:induction false} AbsorbAllHead(env: Env, b: Baseline, rows: seq<G.Placed>)
    requires rows != []
    ensures AbsorbAll(env, b, rows) == AbsorbAll(env, Absorb(env, b, rows[0].row.platform), rows[1..])
  {
    var n := |rows| - 1;
    if n == 0 {
      assert rows[..0] == [] && rows[1..] == [];
    } else {
      AbsorbAllHead(env, b, rows[..n]);
      assert rows[..n][1..] == rows[1..][..n - 1] && rows[1..][n - 1] == rows[n];
    }
  }

  /** Capturing stops right after the first row that makes a version known. */
  lemma {:induction false} CaptureStops(env: Env, b: Baseline, rows: seq<G.Placed>) returns (k: nat)
    requires b.clusterVersion == "" && b.kubeVirtVersion == ""
    ensures TakenFrom(rows, k) && CaptureFrom(env, b, rows) == AbsorbAll(env, b, rows[..k])
    decreases |rows|
  {
    if rows == [] {
      k := 0;
      assert rows[..0] == [];
    } else {
      var next := Absorb(env, b, rows[0].row.platform);
      if Known(rows[0]) {
        k := 1;
      } else {
        k := CaptureStops(env, next, rows[1..]);
        k := k + 1;
      }
      assert rows[..k][1..] == rows[1..][..k - 1] && rows[..1][1..] == [];
      AbsorbAllHead(env, b, rows[..k]);
    }
  }

  /**
   * The baseline is taken from the rows up to the first that makes a platform version known, and shows, field by field,
   * the last thing they have to show: the minor versions and digests may be those of an earlier row.
   */
  lemma {:induction false} CaptureMeaning(env: Env, rows: seq<G.Placed>, now: Time) returns (k: nat)
    ensures TakenFrom(rows, k) && Portrays(env, Capture(env, rows, now), rows[..k], now)
  {
    k := CaptureStops(env, NOTHING_KNOWN.(capturedAt := now), rows);
    AbsorbAllPortrays(env, rows[..k], now);
  }

  // ----- whole runs -----

  /** The rows a stored step ranged over in some order. */
  function Ranged(order: seq<string>, s: Step): seq<G.Placed> { G.Flatten(order, s.after.appStates) }

  lemma {:induction false} StepObserves(env: Env, spec: WindowSpec, prev: Option<Step>, s: Step)
    requires StepOk(env, spec, prev, s)
    ensures s.after.silent == SilentIn(spec, s.inputs.now, Ranged(s.inputs.silenceOrder, s))
    ensures prev.None? ==>
              s.after.baseline == Some(Capture(env, Ranged(s.inputs.baselineOrder, s), s.inputs.now))
  {
    var m := Merge(spec.impactedApps, s.inputs.fetched, s.before.appStates);
    assert Proceed(env, spec, s.before, m.value, s.inputs) == Done(s.after, s.attempted, s.reported, s.transition);
  }

  /** Every stored step lists exactly the silent rows among those it ranged over. */
  lemma {:induction false} SilentOfSteps(env: Env, spec: WindowSpec, h: seq<Step>, n: nat, c: SilentCluster)
    requires IsHistory(env, spec, h) && n < |h|
    ensures c in h[n].after.silent
       <==> exists p :: p in Ranged(h[n].inputs.silenceOrder, h[n]) && SilentRow(spec, h[n].inputs.now, p, c)
  {
    HistoryStep(env, spec, h, n);
    StepObserves(env, spec, Before(h, n), h[n]);
    SilenceMeaning(spec, h[n].inputs.now, Ranged(h[n].inputs.silenceOrder, h[n]), c);
  }

  /** The baseline of every stored step portrays the platform as the first stored step found it. */
  lemma {:induction false} BaselineOfSteps(env: Env, spec: WindowSpec, h: seq<Step>, n: nat) returns (k: nat)
    requires IsHistory(env, spec, h) && n < |h|
    ensures var rows := Ranged(h[0].inputs.baselineOrder, h[0]);
            && TakenFrom(rows, k) && h[n].after.baseline.Some?
            && Portrays(env, h[n].after.baseline.value, rows[..k], h[0].inputs.now)
  {
    HistoryStep(env, spec, h, 0);
    StepObserves(env, spec, Before(h, 0), h[0]);
    RT.PhasesOfStoredSteps(env, spec, h, n);
    k := CaptureMeaning(env, Ranged(h[0].inputs.baselineOrder, h[0]), h[0].inputs.now);
  }
}
