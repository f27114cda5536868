/** Which gauges exist after a run with failed writes, removals and restarts, and which of them are strays. */
module GaugeRuns {
  import opened Base
  import opened Model
  import opened Gauges
  import opened Propagation
  import opened PropagationRuns

  predicate Reconciles(e: Event) { e.Committed? || e.WriteFails? }

  /** The event sets the gauges of this cluster. */
  predicate Sets(e: Event, app: string, c: string)
  {
    Reconciles(e) && e.look.spec.appName == app && c in e.look.spec.targetClusters
  }

  /** The event removes the gauges of this cluster, if there are any. */
  ghost predicate Drops(w: World, e: Event, app: string, c: string)
  {
    || e.Restart?
    || (Reconciles(e) && e.look.spec.appName == app && c !in e.look.spec.targetClusters && Named(w.fleet.rows, c))
    || (e == Finalized(app) && Named(w.fleet.rows, c))
  }

  lemma {:induction false} ShownStep(w: World, e: Event, app: string, c: string)
    ensures Shown(Next(w, e).gauges, app, c) <==> Sets(e, app, c) || (Shown(w.gauges, app, c) && !Drops(w, e, app, c))
  {
    match e
    case Committed(look) => RegaugeMeaning(w.gauges, w.fleet, look, app, c);
    case WriteFails(look) => RegaugeMeaning(w.gauges, w.fleet, look, app, c);
    case Finalized(a) => DropGoneMeaning(w.gauges, a, w.fleet.rows, {}, app, c);
    case Removed =>
    case Restart =>
  }

  /** Some event starts it, and no later one of the first `n` ends it. */
  ghost predicate Lasts(starts: int -> bool, ends: int -> bool, n: int)
  {
    exists i :: 0 <= i < n && starts(i) && forall j :: i < j < n ==> !ends(j)
  }

  lemma {:induction false} LastsStep(starts: int -> bool, ends: int -> bool, n: nat)
    ensures Lasts(starts, ends, n + 1) <==> starts(n) || (Lasts(starts, ends, n) && !ends(n))
  {
    if Lasts(starts, ends, n) && !ends(n) {
      var i :| 0 <= i < n && starts(i) && forall j :: i < j < n ==> !ends(j);
      assert forall j :: i < j < n + 1 ==> !ends(j);
    }
  }

  ghost function SetsAt(events: seq<Event>, app: string, c: string): int -> bool
  {
    i => 0 <= i < |events| && Sets(events[i], app, c)
  }

  ghost function DropsAt(events: seq<Event>, app: string, c: string): int -> bool
  {
    i => 0 <= i < |events| && Drops(After(events[..i]), events[i], app, c)
  }

  lemma {:induction false} AfterOneMore(events: seq<Event>, n: int)
    requires 0 <= n < |events|
    ensures After(events[..n + 1]) == Next(After(events[..n]), events[n])
  {
    assert events[..n + 1][..n] == events[..n];
  }

  lemma {:induction false} ShownAfter(events: seq<Event>, n: nat, app: string, c: string)
    requires n <= |events|
    ensures Shown(After(events[..n]).gauges, app, c) <==> Lasts(SetsAt(events, app, c), DropsAt(events, app, c), n)
  {
    if n > 0 {
      ShownAfter(events, n - 1, app, c);
      AfterOneMore(events, n - 1);
      ShownStep(After(events[..n - 1]), events[n - 1], app, c);
      LastsStep(SetsAt(events, app, c), DropsAt(events, app, c), n - 1);
    }
  }

  /**
   * Over every run, of whatever events: a cluster has gauges if and only if some reconcile set them, and since then
   * there was no restart, no reconcile and no finalizing reconcile that found a row of it outside the targets.
   */
  lemma {:induction false} ShownExactly(events: seq<Event>, app: string, c: string)
    ensures Shown(After(events).gauges, app, c) <==> Lasts(SetsAt(events, app, c), DropsAt(events, app, c), |events|)
  {
    ShownAfter(events, |events|, app, c);
    assert events[..|events|] == events;
  }

  // ----- strays -----

  /** All events are about one application. */
  ghost predicate OneApp(events: seq<Event>, app: string)
  {
    forall i :: 0 <= i < |events| ==> About(events[i], app)
  }

  predicate About(e: Event, app: string)
  {
    (Reconciles(e) ==> e.look.spec.appName == app) && (e.Finalized? ==> e.app == app)
  }

  /** Gauges without a stored row. */
  ghost predicate Stray(w: World, app: string, c: string)
  {
    Shown(w.gauges, app, c) && !Named(w.fleet.rows, c)
  }

  /**
   * A failed write that had the cluster as a target, or the removal of the object while the cluster had gauges, with
   * no row of the cluster stored afterwards.
   */
  ghost predicate Strands(w: World, e: Event, app: string, c: string)
  {
    && ((e.WriteFails? && Sets(e, app, c)) || (e.Removed? && Shown(w.gauges, app, c)))
    && !Named(Next(w, e).fleet.rows, c)
  }

  /** A restart, or the storing of a row of the cluster. */
  ghost predicate Redeems(w: World, e: Event, c: string)
  {
    e.Restart? || Named(Next(w, e).fleet.rows, c)
  }

  lemma {:induction false} StrayStep(w: World, e: Event, app: string, c: string)
    requires About(e, app)
    ensures Stray(Next(w, e), app, c) <==> Strands(w, e, app, c) || (Stray(w, app, c) && !Redeems(w, e, c))
  {
    ShownStep(w, e, app, c);
    if e.Committed? {
      RowsNamed(w.fleet, e.look, c);
    }
  }

  ghost function StrandsAt(events: seq<Event>, app: string, c: string): int -> bool
  {
    i => 0 <= i < |events| && Strands(After(events[..i]), events[i], app, c)
  }

  ghost function RedeemsAt(events: seq<Event>, c: string): int -> bool
  {
    i => 0 <= i < |events| && Redeems(After(events[..i]), events[i], c)
  }

  lemma {:induction false} StrayAfter(events: seq<Event>, n: nat, app: string, c: string)
    requires OneApp(events, app) && n <= |events|
    ensures Stray(After(events[..n]), app, c) <==> Lasts(StrandsAt(events, app, c), RedeemsAt(events, c), n)
  {
    if n > 0 {
      StrayAfter(events, n - 1, app, c);
      AfterOneMore(events, n - 1);
      StrayStep(After(events[..n - 1]), events[n - 1], app, c);
      LastsStep(StrandsAt(events, app, c), RedeemsAt(events, c), n - 1);
    }
  }

  /**
   * The strays of a whole run: exactly the targets of a failed write, or the clusters shown when the object was
   * removed, of which no row has been stored since and that no restart has cleared.
   */
  lemma {:induction false} StraysExactly(events: seq<Event>, app: string, c: string)
    requires OneApp(events, app)
    ensures Stray(After(events), app, c) <==> Lasts(StrandsAt(events, app, c), RedeemsAt(events, c), |events|)
  {
    StrayAfter(events, |events|, app, c);
    assert events[..|events|] == events;
  }

  // ----- removal -----

  /**
   * No finalizer holds an object back, so a plain deletion ends in not-found and touches no gauge. After a committed
   * reconcile it leaves none of the application's gauges behind if and only if that reconcile had no target.
   */
  lemma {:induction false} RemovalLeavesNoneExactly(events: seq<Event>, app: string)
    requires Quiet(events, app) && events != [] && events[|events| - 1].Committed?
    ensures (forall c :: !Shown(After(events + [Removed]).gauges, app, c))
            <==> events[|events| - 1].look.spec.targetClusters == []
  {
    var n := |events| - 1;
    var targets := events[n].look.spec.targetClusters;
    GaugesIndexRows(events, app);
    RemovalKeepsGauges(events);
    forall c ensures Shown(After(events).gauges, app, c) <==> c in targets {
      RowsNamed(After(events[..n]).fleet, events[n].look, c);
    }
    if targets != [] {
      assert Shown(After(events).gauges, app, targets[0]);
    }
  }

  lemma {:induction false} RemovalKeepsGauges(events: seq<Event>)
    ensures After(events + [Removed]) == World(NEW_FLEET, After(events).gauges)
  {
    assert (events + [Removed])[..|events|] == events;
  }
}
