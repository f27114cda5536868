/**
 * Three runs of the whole system in which a validation passes. The first shows that the end-to-end theorem is about
 * something that happens. In the second an impacted application has no rows; in the third the rows are another's.
 */
module ExampleRun {
  import opened Base
  import opened Model
  import opened Evidence
  import opened LocalReport
  import opened EndToEnd
  import opened EndToEndApps
  import G = Gates
  import T = GateTheorems
  import P = Propagation
  import S = SteadyState
  import W = Window

  const SHOP := P.Spec("shop", "abc", ["east"], 600, 900)
  const DESCRIPTOR := Descriptor("shop", "ns", Synced, Healthy, "abc")
  const DEPLOYED := VirtOperator("Deployed", "1.2", true)
  const VIRT := Virt(HcoHealthy, true, 0, 0)
  const TELEMETRY := Telemetry(
    100, Pool("worker", 3, 3, 0, 0, 0, "r1", "r1", PoolUpdated), VIRT,
    Platform([Operator("network", true, false, "4.16")], [], VIRT, ClusterVersion("4.16", "4.16", false, true),
             DEPLOYED, DEPLOYED, DEPLOYED, 0),
    [], [], [])

  function TheReport(): Report
  {
    BuildReport("east", DESCRIPTOR, TELEMETRY).value
  }

  function TheRow(): Row { P.RowOf("east", TheReport(), InSync) }

  function WindowOf(apps: seq<string>): WindowSpec { WindowSpec("CHG1", apps, 50, 500, 0, 300, 2, 180) }

  function Wrote(): Event { AgentWrites("east", DESCRIPTOR, TELEMETRY) }

  /** A report of `shop` is written, and an object of the given name, which names `shop`. */
  function FirstTwo(name: string): seq<Event> { [Wrote(), PsEdited(name, SHOP)] }

  /** The report is aggregated into the object. */
  function Late(): Event { Aggregates(0, [0], 100, 100, true) }

  function Before(name: string): seq<Event> { FirstTwo(name) + [Late()] }

  /** The reconcile at time 100, ranging over the one application it has a state for. */
  function Reconcile(app: string, sources: seq<Source>): Event
  {
    WindowReconciles(W.Inputs(100, 100, [], [app], [app], [app], [app], false, true), sources, true)
  }

  // ----- up to the aggregation -----

  lemma {:induction false} Aggregated(look: P.Look)
    requires look == P.Look(SHOP, [TheReport()], 100, 100)
    ensures P.Aggregate(P.NEW_FLEET, look).rows == [TheRow()]
  {
    P.RowFacts(P.NEW_FLEET, look);
    P.RowsMatchTargets(P.NEW_FLEET, look, 0);
  }

  /** The object as the user wrote it. */
  function NewObject(name: string): Ps { Ps(name, SHOP, P.NEW_FLEET, None) }

  /** The system once the report has been written, and once the object has. */
  function Reported(): System { START.(written := [Wrote()], reports := [TheReport()]) }

  function Edited(name: string): System
  {
    Reported().(store := map[name := NewObject(name)], past := [NewObject(name)])
  }

  lemma {:induction false} FirstEvent(u: Setup)
    ensures After(u, [Wrote()]) == Reported()
  {
    assert [Wrote()][..0] == [];
  }

  lemma {:induction false} SecondEvent(u: Setup, name: string)
    ensures After(u, FirstTwo(name)) == Edited(name)
  {
    FirstEvent(u);
    assert FirstTwo(name)[..1] == [Wrote()];
  }

  /** One run of the aggregator on a new object makes a second version of it, with the computed rows. */
  lemma {:induction false} FirstRecord(s: System, e: Event, ps: Ps, look: P.Look, computed: P.Fleet)
    requires s.past == [ps] && ps.name in s.store && s.store[ps.name] == ps && s.log == []
    requires CanAggregate(s, e) && e.version == 0 && e.written && computed.rows != ps.status.rows
    ensures var t := Record(s, e, look, computed);
            && |t.past| == 2 && t.past[1].name == ps.name && t.past[1].spec == ps.spec
            && t.past[1].status.rows == computed.rows && t.past[1].made == Some(0)
            && t.log == [Aggregation(ps.name, 0, ps.status, look, computed.rows)]
            && t.window == s.window && t.found == s.found
  {
  }

  /** The second version of the object holds the row; it was made by the one aggregation, on the one report. */
  ghost predicate Prepared(s: System, name: string)
  {
    && |s.past| == 2 && s.past[1].name == name && s.past[1].spec == SHOP
    && s.past[1].status.rows == [TheRow()] && s.past[1].made == Some(0)
    && |s.log| == 1 && s.log[0].rows == [TheRow()] && s.log[0].look.reports == [TheReport()]
    && s.window == NEW_STATUS && s.found == map[]
  }

  lemma {:induction false} Third(s: System, name: string)
    requires s == Edited(name)
    ensures CanAggregate(s, Late()) && Prepared(RunAggregator(s, Late()), name)
  {
    var look := LookOf(s, Late());
    assert look.reports == [TheReport()];
    Aggregated(look);
    FirstRecord(s, Late(), NewObject(name), look, P.Aggregate(P.NEW_FLEET, look));
  }

  lemma {:induction false} LastAggregates(u: Setup, s: System, e: Event, name: string)
    requires CanAggregate(s, e) && Prepared(RunAggregator(s, e), name)
    ensures Prepared(Apply(u, s, e), name)
  {
  }

  lemma {:induction false} AfterLate(u: Setup, events: seq<Event>, name: string)
    requires After(u, events) == Edited(name)
    ensures Prepared(After(u, events + [Late()]), name)
  {
    var s := After(u, events);
    Third(s, name);
    LastAggregates(u, s, Late(), name);
    OneMore(u, events, Late());
  }

  lemma {:induction false} AfterBefore(u: Setup, name: string)
    ensures Prepared(After(u, Before(name)), name)
  {
    SecondEvent(u, name);
    AfterLate(u, FirstTwo(name), name);
  }

  // ----- the reconcile -----

  function States(app: string, phase: FleetPhase): map<string, AppState> { map[app := AppState(phase, [TheRow()])] }

  lemma {:induction false} OnlyRow(app: string, phase: FleetPhase)
    ensures Sole(States(app, phase), app, TheRow())
  {
    assert [app][..0] == [];
    assert G.Flatten([app], States(app, phase)) == G.Flatten([], States(app, phase)) + G.Place(app, [TheRow()]);
  }

  lemma {:induction false} TheRowIsGood(g: Gate)
    ensures G.Reported(g, TheRow()) && T.RowSatisfies(g, 50, TheRow())
  {
  }

  lemma {:induction false} GatesHold(spec: WindowSpec, app: string, states: map<string, AppState>, row: Row, g: Gate)
    requires spec.startTime == 50 && spec.impactedApps != [] && G.Reported(g, row) && T.RowSatisfies(g, 50, row)
    requires forall a, r :: G.RowIn(states, a, r) <==> a == app && r == row
    requires T.NoAppEmpty(states)
    ensures T.GateHolds(g, spec, false, states)
    ensures G.Flatten([app], states) == [G.Placed(app, row)] ==> T.LastSayHolds(g, 50, [app], states)
  {
    assert G.RowIn(states, app, row);
    forall a, r | G.RowIn(states, a, r) ensures T.Good(g, 50)(r) {
    }
    assert T.Reports(g)(row);
  }

  /** The one row there is. */
  ghost predicate Sole(states: map<string, AppState>, app: string, row: Row)
  {
    && states.Keys == {app} && T.NoAppEmpty(states)
    && G.Flatten([app], states) == [G.Placed(app, row)]
    && forall a, r :: G.RowIn(states, a, r) <==> a == app && r == row
  }

  /** A row no gate has anything against, seen at time 100. */
  ghost predicate FineRow(row: Row)
  {
    row.observedAt == 100 && forall g: Gate :: G.Reported(g, row) && T.RowSatisfies(g, 50, row)
  }

  lemma {:induction false} Passes(spec: WindowSpec, app: string, states: map<string, AppState>, row: Row,
                                  prev: seq<GateResult>)
    requires spec.startTime == 50 && spec.impactedApps != [] && Sole(states, app, row) && FineRow(row)
    ensures G.Evaluate(spec, false, [app], states, [], prev, 100).passed
  {
    forall g: Gate ensures T.GateHolds(g, spec, false, states) && T.LastSayHolds(g, 50, [app], states) {
      assert G.Reported(g, row) && T.RowSatisfies(g, 50, row);
      GatesHold(spec, app, states, row, g);
    }
    T.PassedMeaning(spec, false, [app], states, [], prev, 100);
  }

  lemma {:induction false} ObservedPassing(env: Env, spec: WindowSpec, app: string, states: map<string, AppState>,
                                           row: Row, inp: W.Inputs)
    requires spec.startTime == 50 && spec.impactedApps != [] && spec.staleReportThresholdSeconds == 300
    requires inp.now == 100 && !inp.hub && inp.gateOrder == [app] && inp.silenceOrder == [app]
    requires Sole(states, app, row) && FineRow(row)
    ensures W.Observe(env, spec, NEW_STATUS, states, inp).validation.passed
  {
    S.SilentListEmpty(spec, 100, [G.Placed(app, row)]);
    Passes(spec, app, states, row, []);
  }

  /** The step of the reconciler that sees just the one row passes. */
  lemma {:induction false} StepPasses(env: Env, spec: WindowSpec, app: string, states: map<string, AppState>, row: Row,
                                      inp: W.Inputs)
    requires spec.startTime == 50 && spec.impactedApps != [] && spec.staleReportThresholdSeconds == 300
    requires |inp.fetched| == |spec.impactedApps| && inp.now == 100 && !inp.hub
    requires inp.gateOrder == [app] && inp.silenceOrder == [app]
    requires W.Merge(spec.impactedApps, inp.fetched, map[]) == Some(states)
    requires Sole(states, app, row) && FineRow(row)
    ensures var o := SetupOf(env, spec).step(NEW_STATUS, inp);
            o.Done? && o.status.appStates == states && o.status.validation.passed
  {
    var obs := W.Observe(env, spec, NEW_STATUS, states, inp);
    var o := W.Settle(env, spec, NEW_STATUS.(appStates := states), inp, obs);
    assert SetupOf(env, spec).step(NEW_STATUS, inp) == o;
    SettleReads(env, spec, NEW_STATUS.(appStates := states), inp, obs);
    ObservedPassing(env, spec, app, states, row, inp);
  }

  lemma {:induction false} TheRowIsFine()
    ensures FineRow(TheRow())
  {
    forall g: Gate ensures G.Reported(g, TheRow()) && T.RowSatisfies(g, 50, TheRow()) {
      TheRowIsGood(g);
    }
  }

  lemma {:induction false} RangesOver(inp: W.Inputs, app: string, phase: FleetPhase)
    requires inp.gateOrder == [app] && inp.silenceOrder == [app]
    ensures RangesProperly(inp, States(app, phase))
  {
  }

  /** In a prepared system, a reconcile that finds the second version for `app` and nothing else passes. */
  ghost predicate PassesOn(u: Setup, s: System, app: string, sources: seq<Source>)
  {
    var e := Reconcile(app, sources);
    && CanReconcile(u, s, e)
    && var o := OutcomeOf(u, s, e);
       && o.Done? && o.status.validation.passed && RangesProperly(e.inputs, o.status.appStates)
       && o.status.appStates.Keys == {app} && o.status.appStates[app].rows == [TheRow()]
       && Apply(u, s, e).found == FoundBy(u, s, e)
  }

  lemma {:induction false} PassesFrom(u: Setup, s: System, app: string, sources: seq<Source>, phase: FleetPhase)
    requires CanReconcile(u, s, Reconcile(app, sources)) && u.spec.startTime == 50
    requires var o := OutcomeOf(u, s, Reconcile(app, sources));
             o.Done? && o.status.appStates == States(app, phase) && o.status.validation.passed
    ensures PassesOn(u, s, app, sources)
  {
    RangesOver(Reconcile(app, sources).inputs, app, phase);
  }

  lemma {:induction false} PreparedPasses(env: Env, s: System, name: string, apps: seq<string>, app: string,
                                          sources: seq<Source>)
    requires Prepared(s, name) && apps != [] && AllFindable(s.past, apps, sources)
    requires W.Merge(apps, Fetches(s.past, apps, sources), map[]) == Some(States(app, s.past[1].status.phase))
    ensures PassesOn(SetupOf(env, WindowOf(apps)), s, app, sources)
  {
    var u, e := SetupOf(env, WindowOf(apps)), Reconcile(app, sources);
    var phase := s.past[1].status.phase;
    OnlyRow(app, phase);
    TheRowIsFine();
    StepPasses(env, WindowOf(apps), app, States(app, phase), TheRow(), InputsOf(u, s, e));
    PassesFrom(u, s, app, sources, phase);
  }

  /** The version found by application is all there is to fetch. */
  lemma {:induction false} FetchOne(s: System, name: string, app: string, src: Source)
    requires Prepared(s, name) && (src == ByApp(1) || src == ByName(1)) && Findable(s.past, app, src)
    ensures AllFindable(s.past, [app], [src])
    ensures W.Merge([app], Fetches(s.past, [app], [src]), map[]) == Some(States(app, s.past[1].status.phase))
    ensures MergeFound([app], [src], map[]) == map[app := 1]
  {
    assert Fetches(s.past, [app], [src]) == [W.Found(StateOf(s.past[1]))];
    assert [app][..0] == [] && [src][..0] == [] && Fetches(s.past, [app], [src])[..0] == [];
  }

  /** A second application that is not there adds nothing. */
  lemma {:induction false} FetchOneOfTwo(s: System, name: string, app: string, other: string, src: Source)
    requires Prepared(s, name) && (src == ByApp(1) || src == ByName(1)) && Findable(s.past, app, src)
    ensures AllFindable(s.past, [app, other], [src, NotThere])
    ensures W.Merge([app, other], Fetches(s.past, [app, other], [src, NotThere]),
            map[]) == Some(States(app, s.past[1].status.phase))
  {
    FetchOne(s, name, app, src);
    var fetched := Fetches(s.past, [app, other], [src, NotThere]);
    assert [app, other][..1] == [app] && fetched[..1] == Fetches(s.past, [app], [src]);
    assert fetched[1] == W.Absent;
  }

  // ----- the runs -----

  /** A run in which Passed is computed on an application's own reports. */
  lemma {:induction false} PassHappens(env: Env)
    ensures var u := SetupOf(env, WindowOf(["shop"])); PassesOn(u, After(u, Before("shop")), "shop", [ByApp(1)])
  {
    var u := SetupOf(env, WindowOf(["shop"]));
    var s := After(u, Before("shop"));
    AfterBefore(u, "shop");
    FetchOne(s, "shop", "shop", ByApp(1));
    PreparedPasses(env, s, "shop", ["shop"], "shop", [ByApp(1)]);
  }

  /** A window of two impacted applications passes on the rows of one: no object of the other was ever found. */
  lemma {:induction false} UnfoundApplicationPasses(env: Env)
    ensures var u := SetupOf(env, WindowOf(["shop", "cart"]));
            && PassesOn(u, After(u, Before("shop")), "shop", [ByApp(1), NotThere])
            && !EverFound(u, Before("shop"), "cart")
  {
    var u := SetupOf(env, WindowOf(["shop", "cart"]));
    var s := After(u, Before("shop"));
    AfterBefore(u, "shop");
    FetchOneOfTwo(s, "shop", "shop", "cart", ByApp(1));
    PreparedPasses(env, s, "shop", ["shop", "cart"], "shop", [ByApp(1), NotThere]);
    FoundExactly(u, Before("shop"), "cart");
  }

  /**
   * A window on `cart` passes on a report of `shop`: the object called cart names shop, and is found by its own name.
   */
  lemma {:induction false} ForeignReportPasses(env: Env)
    ensures var u := SetupOf(env, WindowOf(["cart"]));
            && PassesOn(u, After(u, Before("cart")), "cart", [ByName(1)])
            && Foreign(After(u, Before("cart") + [Reconcile("cart", [ByName(1)])]), "cart")
  {
    var u := SetupOf(env, WindowOf(["cart"]));
    var s := After(u, Before("cart"));
    var e := Reconcile("cart", [ByName(1)]);
    AfterBefore(u, "cart");
    FetchOne(s, "cart", "cart", ByName(1));
    PreparedPasses(env, s, "cart", ["cart"], "cart", [ByName(1)]);
    ForeignAfter(u, Before("cart"));
  }

  lemma {:induction false} ForeignAfter(u: Setup, events: seq<Event>)
    requires Prepared(After(u, events), "cart") && u.spec.impactedApps == ["cart"] && u.spec.startTime == 50
    requires PassesOn(u, After(u, events), "cart", [ByName(1)])
    ensures Foreign(After(u, events + [Reconcile("cart", [ByName(1)])]), "cart")
  {
    var s, e := After(u, events), Reconcile("cart", [ByName(1)]);
    OneMore(u, events, e);
    FetchOne(s, "cart", "cart", ByName(1));
    ForeignRow(Apply(u, s, e), s);
  }

  lemma {:induction false} ForeignRow(t: System, s: System)
    requires Prepared(s, "cart") && t.past == s.past && t.log == s.log && t.found == map["cart" := 1]
    ensures Foreign(t, "cart")
  {
    assert P.IsLast(t.log[0].look.reports, 0, t.log[0].rows[0].clusterName);
  }
}
