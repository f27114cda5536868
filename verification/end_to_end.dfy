/**
 * The whole system as one transition system: agents write reports, users edit PropagationStatus objects, the
 * aggregator and the window reconciler run whenever they like, on caches as stale as they like, and writes fail.
 *
 * `PassedIsBacked` is the end-to-end claim: whatever the interleaving, a passed validation rests, application by
 * application, on one aggregation of an object found for that application, and through it on real reports of healthy
 * clusters at the expected revision, none older than the window tolerates.
 */
module EndToEnd {
  import opened Base
  import opened Model
  import opened Evidence
  import opened LocalReport
  import opened Redundancy
  import G = Gates
  import T = GateTheorems
  import P = Propagation
  import S = SteadyState
  import W = Window

  /**
   * A version of a PropagationStatus object. `made` is a history variable: which aggregation computed its rows.
   */
  datatype Ps = Ps(name: string, spec: P.Spec, status: P.Fleet, made: Option<nat>)

  /** One run of the aggregator: the object and the version of it that was read, what else was read, the rows. */
  datatype Aggregation = Aggregation(name: string, version: nat, prev: P.Fleet, look: P.Look, rows: seq<Row>)

  /**
   * `reports` keeps every report ever written and `past` every version of every PropagationStatus, as caches may
   * still serve any of them. `written`, `log` and `found` are history variables: what the agents did, all aggregations,
   * and the version from which the window took each of its application states.
   */
  datatype System = System(
    written: seq<Event>,
    reports: seq<Report>,
    store: map<string, Ps>,
    past: seq<Ps>,
    log: seq<Aggregation>,
    window: Status,
    found: map<string, nat>)

  const START := System([], [], map[], [], [], NEW_STATUS, map[])

  /** Where the window reconciler finds the status of one impacted application. */
  datatype Source = ByApp(version: nat) | ByName(version: nat) | NotThere | ReadFails

  datatype Event =
    | AgentWrites(cluster: string, descriptor: Descriptor, telemetry: Telemetry)
    | PsEdited(name: string, spec: P.Spec)
    | PsDeleted(name: string)
    | Aggregates(version: nat, picked: seq<nat>, resetAt: Time, now: Time, written: bool)
    | WindowReconciles(inputs: W.Inputs, sources: seq<Source>, written: bool)

  // ----- the window reconciler, seen from outside -----

  /** The window's spec and its reconciler. */
  datatype Setup = Setup(spec: WindowSpec, step: W.Stepper)

  function SetupOf(env: Env, spec: WindowSpec): Setup
  {
    Setup(spec, W.StepperOf(env, spec))
  }

  /** The orders in which the reconciler ranges over the application map list each application once. */
  ghost predicate RangesProperly(inp: W.Inputs, states: map<string, AppState>)
  {
    Enumerates(inp.gateOrder, states.Keys) && Enumerates(inp.silenceOrder, states.Keys)
  }

  /** A reconcile of the open window takes over what it fetched; an early one takes over nothing. */
  predicate TakesOver(spec: WindowSpec, st: Status, inp: W.Inputs, after: Status)
    requires |inp.fetched| == |spec.impactedApps|
  {
    if inp.now < spec.startTime then after.appStates == st.appStates
    else W.Merge(spec.impactedApps, inp.fetched, st.appStates) == Some(after.appStates)
  }

  /** What Passed means for the states a reconcile has taken over. */
  ghost predicate Judged(spec: WindowSpec, inp: W.Inputs, after: Status)
  {
    && (after.validation.passed ==>
          && T.NineGatesHold(spec, inp.hub, after.appStates)
          && W.SilentIn(spec, inp.now, G.Flatten(inp.silenceOrder, after.appStates)) == [])
    && (after.phase.Succeeded? ==> after.validation.passed)
    && (T.AllRows(after.appStates, GatedRows()) ==>
          (after.validation.passed <==> PassedWithoutDiagnostics(after.validation, spec, after.silent)))
  }

  function GatedRows(): Row -> bool
  {
    row => RowGated(row)
  }

  ghost predicate Fact(spec: WindowSpec, st: Status, inp: W.Inputs, o: W.Outcome)
  {
    |inp.fetched| == |spec.impactedApps| ==>
      && (inp.now >= spec.startTime && W.Merge(spec.impactedApps, inp.fetched, st.appStates).Some? ==> o.Done?)
      && (o.Done? ==> TakesOver(spec, st, inp, o.status))
      && (o.Done? && inp.now >= spec.startTime && RangesProperly(inp, o.status.appStates)
         ==> Judged(spec, inp, o.status))
  }

  /** The reconciler behaves as far as the rest of the system is concerned. */
  ghost predicate Faithful(u: Setup)
  {
    forall st, inp {:trigger u.step(st, inp)} :: Fact(u.spec, st, inp, u.step(st, inp))
  }

  /** What `Adopt`, `Conclude` and `Announce` leave of the observation. */
  lemma {:induction false} SettleReads(env: Env, spec: WindowSpec, st: Status, inp: W.Inputs, obs: W.Observation)
    ensures var o := W.Settle(env, spec, st, inp, obs);
            && o.Done? && o.status.appStates == st.appStates
            && o.status.validation == obs.validation && o.status.silent == obs.silent
            && (o.status.phase.Succeeded? ==> obs.validation.passed)
  {
  }

  lemma {:induction false} ValidationJudges(spec: WindowSpec, inp: W.Inputs, after: Status, prev: seq<GateResult>)
    requires RangesProperly(inp, after.appStates)
    requires after.silent == W.SilentIn(spec, inp.now, G.Flatten(inp.silenceOrder, after.appStates))
    requires after.validation == G.Evaluate(spec, inp.hub, inp.gateOrder, after.appStates, after.silent, prev, inp.now)
    requires after.phase.Succeeded? ==> after.validation.passed
    ensures Judged(spec, inp, after)
  {
    T.PassedMeaning(spec, inp.hub, inp.gateOrder, after.appStates, after.silent, prev, inp.now);
    if T.AllRows(after.appStates, GatedRows()) {
      DiagnosticGatesAreRedundant(spec, inp.hub, inp.gateOrder, after.appStates, after.silent, prev, inp.now);
    }
  }

  lemma {:induction false} ReconcileReads(env: Env, spec: WindowSpec, st: Status, inp: W.Inputs)
    ensures Fact(spec, st, inp, SetupOf(env, spec).step(st, inp))
  {
    if |inp.fetched| == |spec.impactedApps| && inp.now >= spec.startTime {
      var m := W.Merge(spec.impactedApps, inp.fetched, st.appStates);
      if m.Some? {
        var st' := st.(appStates := m.value);
        var obs := W.Observe(env, spec, st, m.value, inp);
        var o := W.Settle(env, spec, st', inp, obs);
        assert SetupOf(env, spec).step(st, inp) == o;
        SettleReads(env, spec, st', inp, obs);
        if RangesProperly(inp, m.value) {
          ValidationJudges(spec, inp, o.status, st.validation.gateResults);
        }
      }
    }
  }

  lemma {:induction false} SetupIsFaithful(env: Env, spec: WindowSpec)
    ensures Faithful(SetupOf(env, spec))
  {
    var u := SetupOf(env, spec);
    forall st, inp ensures Fact(u.spec, st, inp, u.step(st, inp)) {
      ReconcileReads(env, spec, st, inp);
    }
  }

  // ----- steps -----

  /** Listing by application yields reports of that application only. */
  predicate Listable(reports: seq<Report>, picked: seq<nat>, app: string)
  {
    forall i :: 0 <= i < |picked| ==> picked[i] < |reports| && reports[picked[i]].appName == app
  }

  function Pick(reports: seq<Report>, picked: seq<nat>, app: string): (r: seq<Report>)
    requires Listable(reports, picked, app)
    ensures |r| == |picked|
    ensures forall i :: 0 <= i < |r| ==> r[i] == reports[picked[i]] && r[i] in reports && r[i].appName == app
  {
    seq(|picked|, i requires 0 <= i < |picked| => reports[picked[i]])
  }

  /** A merge patch sends only what changed; what did not change stays as stored. */
  function Patch<T(==)>(original: T, computed: T, stored: T): T
  {
    if computed == original then stored else computed
  }

  function PatchFleet(o: P.Fleet, c: P.Fleet, s: P.Fleet): P.Fleet
  {
    P.Fleet(Patch(o.lastExpectedRevision, c.lastExpectedRevision, s.lastExpectedRevision),
            Patch(o.expectedRevisionSince, c.expectedRevisionSince, s.expectedRevisionSince),
            Patch(o.rows, c.rows, s.rows),
            Patch(o.diverged, c.diverged, s.diverged), Patch(o.lagging, c.lagging, s.lagging),
            Patch(o.stale, c.stale, s.stale), Patch(o.missing, c.missing, s.missing),
            Patch(o.phase, c.phase, s.phase), Patch(o.condition, c.condition, s.condition))
  }

  /** A patch computed from the stored version stores what was computed; one that changes nothing stores nothing. */
  lemma {:induction false} PatchOfStored(o: P.Fleet, c: P.Fleet, s: P.Fleet)
    ensures PatchFleet(o, c, o) == c && PatchFleet(o, o, s) == s
  {
  }

  function Store(s: System, ps: Ps): System
  {
    s.(store := s.store[ps.name := ps], past := s.past + [ps])
  }

  /** Can this event be a run of the aggregator in this state? */
  predicate CanAggregate(s: System, e: Event)
  {
    e.Aggregates? && e.version < |s.past| && Listable(s.reports, e.picked, s.past[e.version].spec.appName)
  }

  function LookOf(s: System, e: Event): P.Look
    requires CanAggregate(s, e)
  {
    var read := s.past[e.version];
    P.Look(read.spec, Pick(s.reports, e.picked, read.spec.appName), e.resetAt, e.now)
  }

  function RunAggregator(s: System, e: Event): System
    requires CanAggregate(s, e)
  {
    var read := s.past[e.version];
    var computed := P.Aggregate(read.status, LookOf(s, e));
    Record(s, e, LookOf(s, e), computed)
  }

  /**
   * The aggregation is logged; its status is patched into the object if the write works and the object still exists.
   */
  function Record(s: System, e: Event, look: P.Look, computed: P.Fleet): System
    requires CanAggregate(s, e)
  {
    var read := s.past[e.version];
    var logged := s.(log := s.log + [Aggregation(read.name, e.version, read.status, look, computed.rows)]);
    if e.written && read.name in s.store then
      var stored := s.store[read.name];
      var made := if computed.rows == read.status.rows then stored.made else Some(|s.log|);
      Store(logged, Ps(read.name, stored.spec, PatchFleet(read.status, computed, stored.status), made))
    else logged
  }

  /** By application, or by an object name equal to the application's. */
  predicate FoundFor(app: string, ps: Ps)
  {
    ps.spec.appName == app || ps.name == app
  }

  predicate Findable(past: seq<Ps>, app: string, src: Source)
  {
    match src
    case ByApp(v) => v < |past| && past[v].spec.appName == app
    case ByName(v) => v < |past| && past[v].name == app
    case _ => true
  }

  function StateOf(ps: Ps): AppState
  {
    AppState(ps.status.phase, ps.status.rows)
  }

  function FetchFrom(past: seq<Ps>, app: string, src: Source): W.Fetch
    requires Findable(past, app, src)
  {
    match src
    case ByApp(v) => W.Found(StateOf(past[v]))
    case ByName(v) => W.Found(StateOf(past[v]))
    case NotThere => W.Absent
    case ReadFails => W.Broken
  }

  predicate AllFindable(past: seq<Ps>, apps: seq<string>, sources: seq<Source>)
  {
    |sources| == |apps| && forall i :: 0 <= i < |apps| ==> Findable(past, apps[i], sources[i])
  }

  function Fetches(past: seq<Ps>, apps: seq<string>, sources: seq<Source>): (r: seq<W.Fetch>)
    requires AllFindable(past, apps, sources)
    ensures |r| == |apps|
    ensures forall i :: 0 <= i < |r| ==> r[i] == FetchFrom(past, apps[i], sources[i])
  {
    seq(|apps|, i requires 0 <= i < |apps| => FetchFrom(past, apps[i], sources[i]))
  }

  /** From which version each application's state is taken, after these fetches. */
  function MergeFound(apps: seq<string>, sources: seq<Source>, found: map<string, nat>): map<string, nat>
    requires |apps| == |sources|
  {
    if apps == [] then found
    else
      var n := |apps| - 1;
      var m := MergeFound(apps[..n], sources[..n], found);
      if sources[n].ByApp? || sources[n].ByName? then m[apps[n] := sources[n].version] else m
  }

  /** Can this event be a run of the window reconciler in this state? */
  predicate CanReconcile(u: Setup, s: System, e: Event)
  {
    e.WindowReconciles? && AllFindable(s.past, u.spec.impactedApps, e.sources)
  }

  /** What the window reconciler reads in this event. */
  function InputsOf(u: Setup, s: System, e: Event): (inp: W.Inputs)
    requires CanReconcile(u, s, e)
    ensures |inp.fetched| == |u.spec.impactedApps|
  {
    e.inputs.(fetched := Fetches(s.past, u.spec.impactedApps, e.sources))
  }

  function OutcomeOf(u: Setup, s: System, e: Event): W.Outcome
    requires CanReconcile(u, s, e)
  {
    u.step(s.window, InputsOf(u, s, e))
  }

  function FoundBy(u: Setup, s: System, e: Event): map<string, nat>
    requires CanReconcile(u, s, e)
  {
    if e.inputs.now < u.spec.startTime then s.found else MergeFound(u.spec.impactedApps, e.sources, s.found)
  }

  /** An event that cannot happen in a state leaves it alone. */
  function Apply(u: Setup, s: System, e: Event): System
  {
    match e
    case AgentWrites(cluster, descriptor, telemetry) =>
      var rep := BuildReport(cluster, descriptor, telemetry);
      if rep.Some? then s.(written := s.written + [e], reports := s.reports + [rep.value]) else s
    case PsEdited(name, psSpec) =>
      var created := name !in s.store;
      Store(s, Ps(name, psSpec, if created then P.NEW_FLEET else s.store[name].status, if created then None
          else s.store[name].made))
    case PsDeleted(name) => s.(store := s.store - {name})
    case Aggregates(version, picked, resetAt, now, written) =>
      if CanAggregate(s, e) then RunAggregator(s, e) else s
    case WindowReconciles(inputs, sources, written) =>
      if !CanReconcile(u, s, e) then s
      else
        var o := OutcomeOf(u, s, e);
        if o.Done? && written then s.(window := o.status, found := FoundBy(u, s, e)) else s
  }

  function After(u: Setup, events: seq<Event>): System
  {
    if events == [] then START else Apply(u, After(u, events[..|events| - 1]), events[|events| - 1])
  }

  lemma {:induction false} OneMore(u: Setup, events: seq<Event>, e: Event)
    ensures After(u, events + [e]) == Apply(u, After(u, events), e)
  {
    assert (events + [e])[..|events|] == events;
  }

  // ----- the invariant -----

  /**
   * An aggregation read reports that were really written, of the application the object named, and computed what it
   * should.
   */
  ghost predicate Real(reports: seq<Report>, past: seq<Ps>, a: Aggregation)
  {
    && a.version < |past| && past[a.version].name == a.name && past[a.version].spec == a.look.spec
    && (forall j :: 0 <= j < |a.look.reports| ==>
          a.look.reports[j] in reports && a.look.reports[j].appName == a.look.spec.appName)
    && a.rows == P.Aggregate(a.prev, a.look).rows
  }

  /** Some agent wrote this report, about what its descriptor says and what it found. */
  ghost predicate Written(written: seq<Event>, rep: Report)
  {
    exists w :: w in written && w.AgentWrites? && Tells(w.cluster, w.descriptor, w.telemetry, rep)
  }

  ghost predicate LogOk(written: seq<Event>, reports: seq<Report>, past: seq<Ps>, log: seq<Aggregation>)
  {
    && (forall rep :: rep in reports ==> Gated(rep) && rep.appName != "" && Written(written, rep))
    && forall k :: 0 <= k < |log| ==> Real(reports, past, log[k])
  }

  /**
   * The rows are those of the aggregation of this very object that the history variable names, or there are none yet.
   */
  predicate PsOk(log: seq<Aggregation>, ps: Ps)
  {
    match ps.made
    case None => ps.status.rows == []
    case Some(k) => k < |log| && log[k].name == ps.name && log[k].rows == ps.status.rows
  }

  ghost predicate PastOk(log: seq<Aggregation>, store: map<string, Ps>, past: seq<Ps>)
  {
    && (forall v :: 0 <= v < |past| ==> PsOk(log, past[v]))
    && forall n :: n in store ==> store[n].name == n && PsOk(log, store[n])
  }

  /** Each state is that of the version it was taken from, an object found for the application. */
  predicate StatesOk(past: seq<Ps>, states: map<string, AppState>, found: map<string, nat>)
  {
    && states.Keys == found.Keys
    && forall a :: a in states ==>
        found[a] < |past| && FoundFor(a, past[found[a]])
        && states[a] == StateOf(past[found[a]])
  }

  ghost predicate Inv(s: System)
  {
    && LogOk(s.written, s.reports, s.past, s.log)
    && PastOk(s.log, s.store, s.past) && StatesOk(s.past, s.window.appStates, s.found)
  }

  /** Nothing is forgotten. */
  ghost predicate Extends(s: System, t: System)
  {
    s.written <= t.written && s.log <= t.log && s.past <= t.past && forall rep :: rep in s.reports ==> rep in t.reports
  }

  lemma {:induction false} StepExtends(u: Setup, s: System, e: Event)
    ensures Extends(s, Apply(u, s, e))
  {
  }

  lemma {:induction false} PastGrows(log: seq<Aggregation>, a: Aggregation, store: map<string, Ps>, past: seq<Ps>)
    requires PastOk(log, store, past)
    ensures PastOk(log + [a], store, past)
  {
    forall ps | PsOk(log, ps) ensures PsOk(log + [a], ps) {
    }
  }

  lemma {:induction false} StoreKeeps(s: System, ps: Ps)
    requires Inv(s) && PsOk(s.log, ps)
    ensures Inv(Store(s, ps))
  {
    forall k | 0 <= k < |s.log| ensures Real(s.reports, s.past + [ps], s.log[k]) {
      assert Real(s.reports, s.past, s.log[k]);
    }
  }

  lemma {:induction false} LogKeeps(s: System, a: Aggregation)
    requires Inv(s) && Real(s.reports, s.past, a)
    ensures Inv(s.(log := s.log + [a]))
  {
    PastGrows(s.log, a, s.store, s.past);
  }

  lemma {:induction false} RecordKeepsInv(s: System, e: Event, look: P.Look, computed: P.Fleet)
    requires Inv(s) && CanAggregate(s, e)
    requires Real(s.reports, s.past,
             Aggregation(s.past[e.version].name, e.version, s.past[e.version].status, look, computed.rows))
    ensures Inv(Record(s, e, look, computed))
  {
    var read := s.past[e.version];
    var a := Aggregation(read.name, e.version, read.status, look, computed.rows);
    var logged := s.(log := s.log + [a]);
    LogKeeps(s, a);
    assert logged.log[|s.log|] == a;
    if e.written && read.name in s.store {
      var stored := s.store[read.name];
      var made := if computed.rows == read.status.rows then stored.made else Some(|s.log|);
      assert PsOk(logged.log, stored);
      StoreKeeps(logged, Ps(read.name, stored.spec, PatchFleet(read.status, computed, stored.status), made));
    }
  }

  lemma {:induction false} AggregatorKeepsInv(s: System, e: Event)
    requires Inv(s) && CanAggregate(s, e)
    ensures Inv(RunAggregator(s, e))
  {
    RecordKeepsInv(s, e, LookOf(s, e), P.Aggregate(s.past[e.version].status, LookOf(s, e)));
  }

  lemma {:induction false} FetchesAreFound(past: seq<Ps>, apps: seq<string>, sources: seq<Source>,
                                           states: map<string, AppState>, found: map<string, nat>)
    requires StatesOk(past, states, found) && AllFindable(past, apps, sources)
    ensures var m := W.Merge(apps, Fetches(past, apps, sources), states);
            m.Some? ==> StatesOk(past, m.value, MergeFound(apps, sources, found))
  {
    if apps != [] {
      var n := |apps| - 1;
      FetchesAreFound(past, apps[..n], sources[..n], states, found);
      assert Fetches(past, apps, sources)[..n] == Fetches(past, apps[..n], sources[..n]);
    }
  }

  /** The states a reconcile that gets through ends with are those of versions found for their applications. */
  lemma {:induction false} OutcomeIsFound(u: Setup, s: System, e: Event)
    requires Faithful(u) && Inv(s) && CanReconcile(u, s, e) && OutcomeOf(u, s, e).Done?
    ensures StatesOk(s.past, OutcomeOf(u, s, e).status.appStates, FoundBy(u, s, e))
  {
    assert Fact(u.spec, s.window, InputsOf(u, s, e), OutcomeOf(u, s, e));
    FetchesAreFound(s.past, u.spec.impactedApps, e.sources, s.window.appStates, s.found);
  }

  lemma {:induction false} AgentKeepsInv(s: System, e: Event, rep: Report)
    requires Inv(s) && e.AgentWrites? && Tells(e.cluster, e.descriptor, e.telemetry, rep)
    requires Gated(rep) && rep.appName != ""
    ensures Inv(s.(written := s.written + [e], reports := s.reports + [rep]))
  {
    forall k | 0 <= k < |s.log| ensures Real(s.reports + [rep], s.past, s.log[k]) {
      assert Real(s.reports, s.past, s.log[k]);
    }
    forall r | r in s.reports + [rep] ensures Written(s.written + [e], r) {
      if r in s.reports {
        var w :| w in s.written && w.AgentWrites? && Tells(w.cluster, w.descriptor, w.telemetry, r);
        assert w in s.written + [e];
      } else {
        assert e in s.written + [e];
      }
    }
  }

  lemma {:induction false} StepKeepsInv(u: Setup, s: System, e: Event)
    requires Faithful(u) && Inv(s)
    ensures Inv(Apply(u, s, e))
  {
    match e
    case AgentWrites(cluster, descriptor, telemetry) =>
      var rep := BuildReport(cluster, descriptor, telemetry);
      if rep.Some? {
        AgentKeepsInv(s, e, rep.value);
      }
    case PsEdited(name, psSpec) =>
      var created := name !in s.store;
      StoreKeeps(s, Ps(name, psSpec, if created then P.NEW_FLEET else s.store[name].status, if created then None
          else s.store[name].made));
    case PsDeleted(name) =>
    case Aggregates(version, picked, resetAt, now, written) =>
      if CanAggregate(s, e) {
        AggregatorKeepsInv(s, e);
      }
    case WindowReconciles(inputs, sources, written) =>
      if CanReconcile(u, s, e) && OutcomeOf(u, s, e).Done? {
        OutcomeIsFound(u, s, e);
      }
  }

  lemma {:induction false} RunsKeepInv(u: Setup, events: seq<Event>)
    requires Faithful(u)
    ensures Inv(After(u, events))
  {
    if events != [] {
      RunsKeepInv(u, events[..|events| - 1]);
      StepKeepsInv(u, After(u, events[..|events| - 1]), events[|events| - 1]);
    }
  }

  /** What the history variable says agents did, they did in this run. */
  lemma {:induction false} WritesHappened(u: Setup, events: seq<Event>)
    ensures forall w :: w in After(u, events).written ==> w in events
  {
    if events != [] {
      var n := |events| - 1;
      WritesHappened(u, events[..n]);
      WritesStep(u, After(u, events[..n]), events[n]);
    }
  }

  lemma {:induction false} WritesStep(u: Setup, s: System, e: Event)
    ensures forall w :: w in Apply(u, s, e).written ==> w in s.written || w == e
  {
  }

  /** The aggregation is what the aggregator read and saw in this event. */
  predicate Aggregated(e: Event, a: Aggregation)
  {
    && e.Aggregates? && a.version == e.version && |a.look.reports| == |e.picked|
    && a.look.resetAt == e.resetAt && a.look.now == e.now
  }

  ghost predicate InRun(events: seq<Event>, a: Aggregation)
  {
    exists e :: e in events && Aggregated(e, a)
  }

  /** What is logged has happened in this run. */
  lemma {:induction false} AggregationsHappened(u: Setup, events: seq<Event>)
    ensures forall a :: a in After(u, events).log ==> InRun(events, a)
  {
    if events != [] {
      var n := |events| - 1;
      AggregationsHappened(u, events[..n]);
      AggregationStep(u, After(u, events[..n]), events[n]);
      forall a | a in After(u, events).log ensures InRun(events, a) {
        if InRun(events[..n], a) {
          var e :| e in events[..n] && Aggregated(e, a);
          assert e in events;
        }
      }
    }
  }

  lemma {:induction false} AggregationStep(u: Setup, s: System, e: Event)
    ensures forall a :: a in Apply(u, s, e).log ==> a in s.log || Aggregated(e, a)
  {
  }

  // ----- what a passed validation rests on -----

  /**
   * What the agent on this cluster did: it read a descriptor of the application that says healthy, not out of sync and
   * at the revision, and found virt-handler ready and no stalled migration, recently enough.
   */
  predicate GoodWrite(w: Event, cluster: string, spec: P.Spec, now: Time, window: WindowSpec)
  {
    && w.AgentWrites? && w.cluster == cluster
    && w.descriptor.appName == spec.appName && w.descriptor.revision == spec.expectedRevision
    && !w.descriptor.syncStatus.OutOfSync? && w.descriptor.health.Healthy?
    && w.telemetry.virt.virtHandlerReady && w.telemetry.virt.stalledMigrations <= 0
    && Sub(now, w.telemetry.observedAt) <= OrDefault(window.staleReportThresholdSeconds, 300)
  }

  /** The row meets the demands of all nine gates that look at every row. */
  ghost predicate MeetsNine(row: Row, start: Time)
  {
    forall g: Gate :: !T.LastWriter(g) ==> T.RowSatisfies(g, start, row)
  }

  /**
   * The row copies the report that counted for its cluster in `look` and was recent then, and an agent wrote that
   * report in a good state of the application, at the revision expected there. It meets the demands of all nine gates.
   */
  ghost predicate RowRests(written: seq<Event>, look: P.Look, row: Row, now: Time, spec: WindowSpec)
  {
    exists j, w ::
      && P.IsLast(look.reports, j, row.clusterName) && w in written
      && P.Copies(row, look.reports[j]) && row.state.InSync? && MeetsNine(row, spec.startTime)
      && Sub(look.now, row.observedAt) <= OrDefault(look.spec.staleReportThresholdSeconds, 900)
      && GoodWrite(w, row.clusterName, look.spec, now, spec)
      && Tells(w.cluster, w.descriptor, w.telemetry, look.reports[j])
  }

  /**
   * The rows are those of one aggregation, one for each of its targets in order, and every one of them rests on a
   * report.
   */
  ghost predicate RowsRest(written: seq<Event>, a: Aggregation, rows: seq<Row>, now: Time, spec: WindowSpec)
  {
    var targets := a.look.spec.targetClusters;
    && rows == a.rows && |rows| == |targets|
    && forall i :: 0 <= i < |rows| ==>
        rows[i].clusterName == targets[i]
        && RowRests(written, a.look, rows[i], now, spec)
  }

  /**
   * The state of one application is that of version `v` of an object found for it. Unless it has no rows, they are
   * those of one aggregation of that very object, with one of that object's specs, and rest on reports.
   */
  ghost predicate AppRests(s: System, app: string, st: AppState, v: nat, now: Time, spec: WindowSpec)
  {
    && v < |s.past| && FoundFor(app, s.past[v])
    && st.rows == s.past[v].status.rows && st.phase == s.past[v].status.phase
    && (st.rows != [] ==>
          && s.past[v].made.Some? && s.past[v].made.value < |s.log|
          && var a := s.log[s.past[v].made.value];
             && a.name == s.past[v].name
             && a.version < |s.past| && s.past[a.version].name == a.name && s.past[a.version].spec == a.look.spec
             && RowsRest(s.written, a, st.rows, now, spec))
  }

  ghost predicate StatesRest(s: System, states: map<string, AppState>, found: map<string, nat>, now: Time,
                             spec: WindowSpec)
  {
    && T.SomeRow(states)
    && states.Keys == found.Keys
    && forall a :: a in states ==> AppRests(s, a, states[a], found[a], now, spec)
  }

  lemma {:induction false} InSyncRow(prev: P.Fleet, look: P.Look, i: nat, row: Row)
    requires i < |P.Aggregate(prev, look).rows| && row == P.Aggregate(prev, look).rows[i] && row.state == InSync
    ensures exists j ::
              P.IsLast(look.reports, j, row.clusterName) && P.Copies(row, look.reports[j])
              && look.reports[j].observedRevision == look.spec.expectedRevision
              && !look.reports[j].syncStatus.OutOfSync?
    ensures Sub(look.now, row.observedAt) <= OrDefault(look.spec.staleReportThresholdSeconds, 900)
  {
    P.RowFacts(prev, look);
    P.RowsMatchTargets(prev, look, i);
    var j :| P.IsLast(look.reports, j, row.clusterName) && P.Copies(row, look.reports[j]);
    var j' :| P.IsLast(look.reports, j', row.clusterName)
              && look.reports[j'].observedRevision == look.spec.expectedRevision
              && !look.reports[j'].syncStatus.OutOfSync?
              && Sub(look.now, look.reports[j'].observedAt) <= OrDefault(look.spec.staleReportThresholdSeconds, 900);
    assert j == j';
  }

  /** A passed validation says of every row that it meets the demands of the nine gates. */
  lemma {:induction false} PassedRow(spec: WindowSpec, hub: bool, states: map<string, AppState>, app: string, row: Row)
    requires T.NineGatesHold(spec, hub, states) && G.RowIn(states, app, row)
    ensures MeetsNine(row, spec.startTime)
  {
    forall g: Gate | !T.LastWriter(g) ensures T.RowSatisfies(g, spec.startTime, row) {
      assert T.GateHolds(g, spec, hub, states);
      assert T.Good(g, spec.startTime)(row);
    }
  }

  lemma {:induction false} NobodySilentMeans(spec: WindowSpec, now: Time, order: seq<string>, states: map<string,
                                             AppState>, app: string, row: Row)
    requires Enumerates(order, states.Keys) && G.RowIn(states, app, row)
    requires W.SilentIn(spec, now, G.Flatten(order, states)) == []
    ensures Sub(now, row.observedAt) <= OrDefault(spec.staleReportThresholdSeconds, 300)
  {
    S.SilentListEmpty(spec, now, G.Flatten(order, states));
    G.VisitsEveryRow(order, states);
    assert G.Placed(app, row) in G.Flatten(order, states);
  }

  /** A row fit to pass: clean on all nine gates, and recent. */
  ghost predicate RowFit(row: Row, now: Time, spec: WindowSpec)
  {
    MeetsNine(row, spec.startTime) && Sub(now, row.observedAt) <= OrDefault(spec.staleReportThresholdSeconds, 300)
  }

  lemma {:induction false} PassedRowsAreFit(spec: WindowSpec, inp: W.Inputs, after: Status, app: string, row: Row)
    requires RangesProperly(inp, after.appStates) && Judged(spec, inp, after) && after.validation.passed
    requires G.RowIn(after.appStates, app, row)
    ensures RowFit(row, inp.now, spec)
  {
    PassedRow(spec, inp.hub, after.appStates, app, row);
    NobodySilentMeans(spec, inp.now, inp.silenceOrder, after.appStates, app, row);
  }

  /** All that is real was written by agents. */
  ghost predicate AllWritten(written: seq<Event>, reports: seq<Report>)
  {
    forall rep :: rep in reports ==> Written(written, rep)
  }

  lemma {:induction false} MeetsNineMeans(row: Row, start: Time)
    requires MeetsNine(row, start)
    ensures row.state == InSync && row.health == Healthy && row.virt.virtHandlerReady && row.virt.stalledMigrations <= 0
  {
    assert T.RowSatisfies(AllChangesApplied, start, row);
    assert T.RowSatisfies(HealthCheckPassed, start, row);
    assert T.RowSatisfies(VirtImpactPassed, start, row);
  }

  /** What a good and recent row copies was written in a good state. */
  lemma {:induction false} WriteIsGood(w: Event, rep: Report, row: Row, ps: P.Spec, now: Time, spec: WindowSpec)
    requires w.AgentWrites? && Tells(w.cluster, w.descriptor, w.telemetry, rep) && P.Copies(row, rep)
    requires rep.clusterName == row.clusterName && rep.appName == ps.appName
    requires rep.observedRevision == ps.expectedRevision && !rep.syncStatus.OutOfSync?
    requires row.health == Healthy && row.virt.virtHandlerReady && row.virt.stalledMigrations <= 0
    requires Sub(now, row.observedAt) <= OrDefault(spec.staleReportThresholdSeconds, 300)
    ensures GoodWrite(w, row.clusterName, ps, now, spec)
  {
  }

  /** Fit rows of a real aggregation rest on what agents wrote. */
  lemma {:induction false} FitRowRests(written: seq<Event>, reports: seq<Report>, past: seq<Ps>, a: Aggregation, i: nat,
                                       now: Time, spec: WindowSpec)
    requires Real(reports, past, a) && AllWritten(written, reports)
    requires i < |a.rows| && RowFit(a.rows[i], now, spec)
    ensures RowRests(written, a.look, a.rows[i], now, spec)
  {
    var row := a.rows[i];
    MeetsNineMeans(row, spec.startTime);
    InSyncRow(a.prev, a.look, i, row);
    var j :| P.IsLast(a.look.reports, j, row.clusterName) && P.Copies(row, a.look.reports[j])
             && a.look.reports[j].observedRevision == a.look.spec.expectedRevision
             && !a.look.reports[j].syncStatus.OutOfSync?;
    var rep := a.look.reports[j];
    assert rep in reports && rep.appName == a.look.spec.appName;
    var w :| w in written && w.AgentWrites? && Tells(w.cluster, w.descriptor, w.telemetry, rep);
    WriteIsGood(w, rep, row, a.look.spec, now, spec);
  }

  lemma {:induction false} FitRowsRest(written: seq<Event>, reports: seq<Report>, past: seq<Ps>, a: Aggregation,
                                       now: Time, spec: WindowSpec)
    requires Real(reports, past, a) && AllWritten(written, reports)
    requires forall i :: 0 <= i < |a.rows| ==> RowFit(a.rows[i], now, spec)
    ensures RowsRest(written, a, a.rows, now, spec)
  {
    P.RowFacts(a.prev, a.look);
    forall i | 0 <= i < |a.rows| ensures RowRests(written, a.look, a.rows[i], now, spec) {
      FitRowRests(written, reports, past, a, i, now, spec);
    }
  }

  lemma {:induction false} FitAppRests(s: System, app: string, st: AppState, v: nat, now: Time, spec: WindowSpec)
    requires Inv(s) && v < |s.past| && FoundFor(app, s.past[v]) && st == StateOf(s.past[v])
    requires forall row :: row in st.rows ==> RowFit(row, now, spec)
    ensures AppRests(s, app, st, v, now, spec)
  {
    assert PsOk(s.log, s.past[v]);
    if st.rows != [] {
      var a := s.log[s.past[v].made.value];
      assert Real(s.reports, s.past, a);
      FitRowsRest(s.written, s.reports, s.past, a, now, spec);
    }
  }

  /** All that is claimed of one reconcile that got through. */
  ghost predicate Backed(u: Setup, s: System, e: Event, after: Status)
    requires CanReconcile(u, s, e)
  {
    && (after.validation.passed ==> StatesRest(s, after.appStates, FoundBy(u, s, e), e.inputs.now, u.spec))
    && (after.validation.passed && !e.inputs.hub ==> T.NoAppEmpty(after.appStates))
    && (after.phase.Succeeded? ==> after.validation.passed)
    && (after.validation.passed <==> PassedWithoutDiagnostics(after.validation, u.spec, after.silent))
  }

  /**
   * End to end, over every interleaving. When a reconcile of the open window computes Passed at time t, there is at
   * least one row. The state of each application is that of an object found for it. Its rows are those of one
   * aggregation of that very object, one per target cluster. Each is the copy of a report that some agent wrote in this
   * run, from a descriptor that said healthy, not out of sync and at exactly the revision the object expected, with
   * virt-handler found ready and no migration stalled, at t no longer ago than the window's threshold. It meets the
   * demands of all nine gates that look at every row. Off the hub no application is without rows. A reconcile that
   * concludes Succeeded has computed Passed; dropping the diagnostic gates would not change the verdict.
   */
  lemma {:induction false} PassedIsBacked(u: Setup, events: seq<Event>, e: Event)
    requires Faithful(u)
    requires CanReconcile(u, After(u, events), e) && e.inputs.now >= u.spec.startTime
    requires var o := OutcomeOf(u, After(u, events), e); o.Done? && RangesProperly(e.inputs, o.status.appStates)
    ensures Backed(u, After(u, events), e, OutcomeOf(u, After(u, events), e).status)
    ensures forall w :: w in After(u, events).written ==> w in events
    ensures forall a :: a in After(u, events).log ==> InRun(events, a)
  {
    var s := After(u, events);
    WritesHappened(u, events);
    AggregationsHappened(u, events);
    var inp := InputsOf(u, s, e);
    var after := OutcomeOf(u, s, e).status;
    RunsKeepInv(u, events);
    OutcomeIsFound(u, s, e);
    assert Fact(u.spec, s.window, inp, OutcomeOf(u, s, e));
    assert RangesProperly(inp, after.appStates);
    FoundRowsAreGated(s, after.appStates, FoundBy(u, s, e));
    if after.validation.passed {
      PassedRests(u.spec, s, inp, after, FoundBy(u, s, e));
    }
  }

  lemma {:induction false} PassedScope(spec: WindowSpec, hub: bool, states: map<string, AppState>)
    requires T.NineGatesHold(spec, hub, states)
    ensures T.SomeRow(states) && (hub || T.NoAppEmpty(states))
  {
    assert T.GateHolds(AllChangesApplied, spec, hub, states);
  }

  /** The rows of one application at Passed. */
  lemma {:induction false} PassedAppRests(spec: WindowSpec, s: System, inp: W.Inputs, after: Status, a: string, v: nat)
    requires Inv(s) && a in after.appStates && v < |s.past| && FoundFor(a, s.past[v])
    requires after.appStates[a] == StateOf(s.past[v])
    requires RangesProperly(inp, after.appStates) && Judged(spec, inp, after) && after.validation.passed
    ensures AppRests(s, a, after.appStates[a], v, inp.now, spec)
  {
    forall row | row in after.appStates[a].rows ensures RowFit(row, inp.now, spec) {
      PassedRowsAreFit(spec, inp, after, a, row);
    }
    FitAppRests(s, a, after.appStates[a], v, inp.now, spec);
  }

  lemma {:induction false} PassedRests(spec: WindowSpec, s: System, inp: W.Inputs, after: Status, found: map<string,
                                       nat>)
    requires Inv(s) && StatesOk(s.past, after.appStates, found)
    requires RangesProperly(inp, after.appStates) && Judged(spec, inp, after) && after.validation.passed
    ensures StatesRest(s, after.appStates, found, inp.now, spec)
    ensures !inp.hub ==> T.NoAppEmpty(after.appStates)
  {
    PassedScope(spec, inp.hub, after.appStates);
    forall a | a in after.appStates ensures AppRests(s, a, after.appStates[a], found[a], inp.now, spec) {
      PassedAppRests(spec, s, inp, after, a, found[a]);
    }
  }

  lemma {:induction false} FoundRowsAreGated(s: System, states: map<string, AppState>, found: map<string, nat>)
    requires Inv(s) && StatesOk(s.past, states, found)
    ensures T.AllRows(states, GatedRows())
  {
    forall a, row | G.RowIn(states, a, row) ensures RowGated(row) {
      var ps := s.past[found[a]];
      assert PsOk(s.log, ps);
      var agg := s.log[ps.made.value];
      assert Real(s.reports, s.past, agg);
      var i :| 0 <= i < |agg.rows| && agg.rows[i] == row;
      AggregationKeepsGating(agg.prev, agg.look, i);
    }
  }
}
