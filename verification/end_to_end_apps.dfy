/**
 * Applications in the whole system: when the reports behind an application's rows are its own, and which impacted
 * applications have rows at all.
 */
module EndToEndApps {
  import opened Base
  import opened Model
  import opened LocalReport
  import opened EndToEnd
  import G = Gates
  import T = GateTheorems
  import P = Propagation
  import S = SteadyState
  import W = Window

  // ----- whose reports -----

  datatype Edit = Edit(name: string, spec: P.Spec)

  /** What users have ever written into PropagationStatus objects. */
  function Edits(events: seq<Event>): set<Edit>
  {
    if events == [] then {}
    else Edits(events[..|events| - 1]) + EditOf(events[|events| - 1])
  }

  lemma {:induction false} EditsAppend(a: seq<Event>, b: seq<Event>)
    ensures Edits(a + b) == Edits(a) + Edits(b)
  {
    if b == [] {
      assert a + b == a;
    } else {
      var n := |b| - 1;
      assert (a + b)[..|a + b| - 1] == a + b[..n];
      EditsAppend(a, b[..n]);
    }
  }

  /** Every version of every object has a spec some user wrote into an object of that name. */
  ghost predicate Edited(s: System, edits: set<Edit>)
  {
    && (forall v :: 0 <= v < |s.past| ==> Edit(s.past[v].name, s.past[v].spec) in edits)
    && forall n :: n in s.store ==> s.store[n].name == n && Edit(n, s.store[n].spec) in edits
  }

  function EditOf(e: Event): set<Edit> { if e.PsEdited? then {Edit(e.name, e.spec)} else {} }

  lemma {:induction false} StepEdited(u: Setup, s: System, e: Event, edits: set<Edit>)
    requires Edited(s, edits)
    ensures Edited(Apply(u, s, e), edits + EditOf(e))
  {
    if e.Aggregates? && CanAggregate(s, e) {
      RecordEdited(s, e, LookOf(s, e), P.Aggregate(s.past[e.version].status, LookOf(s, e)), edits);
    }
  }

  lemma {:induction false} RecordEdited(s: System, e: Event, look: P.Look, computed: P.Fleet, edits: set<Edit>)
    requires Edited(s, edits) && CanAggregate(s, e)
    ensures Edited(Record(s, e, look, computed), edits)
  {
  }

  lemma {:induction false} VersionsAreEdited(u: Setup, events: seq<Event>)
    ensures Edited(After(u, events), Edits(events))
  {
    if events != [] {
      VersionsAreEdited(u, events[..|events| - 1]);
      StepEdited(u, After(u, events[..|events| - 1]), events[|events| - 1], Edits(events[..|events| - 1]));
    }
  }

  // ----- which objects there are -----

  /** Event `i` wrote the object, and none after it deleted it. */
  ghost predicate KeptSince(events: seq<Event>, i: int, name: string)
  {
    && 0 <= i < |events| && events[i].PsEdited? && events[i].name == name
    && forall j :: i < j < |events| ==> events[j] != PsDeleted(name)
  }

  lemma {:induction false} KeptStep(events: seq<Event>, name: string)
    requires events != []
    ensures var last, front := events[|events| - 1], events[..|events| - 1];
            (exists i :: KeptSince(events, i, name))
            <==> (last.PsEdited? && last.name == name)
                 || (last != PsDeleted(name) && exists i :: KeptSince(front, i, name))
  {
    var last, front := events[|events| - 1], events[..|events| - 1];
    forall i | 0 <= i < |front|
      ensures KeptSince(events, i, name) <==> KeptSince(front, i, name) && last != PsDeleted(name)
    {
      assert forall j :: 0 <= j < |front| ==> front[j] == events[j];
    }
    if last.PsEdited? && last.name == name {
      assert KeptSince(events, |events| - 1, name);
    } else if last != PsDeleted(name) && exists i :: KeptSince(front, i, name) {
      var i :| KeptSince(front, i, name);
      assert KeptSince(events, i, name);
    }
  }

  lemma {:induction false} StoredStep(u: Setup, s: System, e: Event, name: string)
    ensures name in Apply(u, s, e).store
       <==> (e.PsEdited? && e.name == name) || (name in s.store && e != PsDeleted(name))
  {
  }

  /**
   * An object is there exactly if a user wrote it and nobody has deleted it since: an aggregation that was under way
   * when its object was deleted does not bring it back.
   */
  lemma {:induction false} StoredExactlyIfKept(u: Setup, events: seq<Event>, name: string)
    ensures name in After(u, events).store <==> exists i :: KeptSince(events, i, name)
  {
    if events != [] {
      var n := |events| - 1;
      StoredExactlyIfKept(u, events[..n], name);
      KeptStep(events, name);
      StoredStep(u, After(u, events[..n]), events[n], name);
    }
  }

  // ----- foreign reports -----

  /** The stored rows of the application count a report of another application. */
  ghost predicate Foreign(s: System, app: string)
  {
    app in s.found && s.found[app] < |s.past| && s.past[s.found[app]].made.Some?
    && var k := s.past[s.found[app]].made.value;
       k < |s.log|
       && exists i, j ::
            && 0 <= i < |s.log[k].rows|
            && P.IsLast(s.log[k].look.reports, j, s.log[k].rows[i].clusterName)
            && s.log[k].look.reports[j].appName != app
  }

  /** The spec cannot bring in reports of another application. */
  predicate Harmless(spec: P.Spec, app: string)
  {
    spec.appName == app || spec.appName == "" || spec.targetClusters == []
  }

  /**
   * Whatever objects can be found for the application, by its name or by their own, have never aggregated another one.
   */
  ghost predicate Agree(edits: set<Edit>, app: string)
  {
    forall e, f :: e in edits && f in edits && e.name == f.name && (e.name == app || e.spec.appName == app)
      ==> Harmless(f.spec, app)
  }

  lemma {:induction false} AgreementSuffices(u: Setup, events: seq<Event>, app: string)
    requires Faithful(u) && Agree(Edits(events), app)
    ensures !Foreign(After(u, events), app)
  {
    var s := After(u, events);
    RunsKeepInv(u, events);
    VersionsAreEdited(u, events);
    if app in s.found && s.past[s.found[app]].made.Some? {
      var ps := s.past[s.found[app]];
      assert PsOk(s.log, ps);
      var a := s.log[ps.made.value];
      assert Real(s.reports, s.past, a);
      assert Edit(ps.name, ps.spec) in Edits(events)
             && Edit(s.past[a.version].name, s.past[a.version].spec) in Edits(events);
      assert Harmless(a.look.spec, app);
      P.RowFacts(a.prev, a.look);
    }
  }

  // ----- when they disagree -----

  /**
   * A reconcile of the open window that finds version `v` for every occurrence of the application, and nothing else.
   */
  function Sources(apps: seq<string>, app: string, src: Source): (r: seq<Source>)
    ensures |r| == |apps|
    ensures forall i :: 0 <= i < |apps| ==> r[i] == if apps[i] == app then src else NotThere
  {
    seq(|apps|, i requires 0 <= i < |apps| => if apps[i] == app then src else NotThere)
  }

  lemma {:induction false} NothingBroken(past: seq<Ps>, apps: seq<string>, app: string, src: Source,
                                         states: map<string, AppState>)
    requires (src.ByApp? || src.ByName?) && Findable(past, app, src)
    ensures AllFindable(past, apps, Sources(apps, app, src))
    ensures W.Merge(apps, Fetches(past, apps, Sources(apps, app, src)), states).Some?
  {
    var fetched := Fetches(past, apps, Sources(apps, app, src));
    forall i | 0 <= i < |fetched| ensures !fetched[i].Broken? {
    }
    S.MergeMeaning(apps, fetched, states);
  }

  lemma {:induction false} FindsIt(apps: seq<string>, app: string, src: Source, found: map<string, nat>)
    requires (src.ByApp? || src.ByName?) && app in apps
    ensures var m := MergeFound(apps, Sources(apps, app, src), found); app in m && m[app] == src.version
  {
    var n := |apps| - 1;
    var all := Sources(apps, app, src);
    assert all[..n] == Sources(apps[..n], app, src);
    if apps[n] != app {
      assert apps == apps[..n] + [apps[n]];
      FindsIt(apps[..n], app, src, found);
    }
  }

  /** How the window comes to take the state of the application from a version that is found for it. */
  lemma {:induction false} WindowTakes(u: Setup, s: System, app: string, v: nat) returns (e: Event)
    requires Faithful(u) && app in u.spec.impactedApps
    requires v < |s.past| && FoundFor(app, s.past[v])
    ensures Edits([e]) == {}
    ensures var t := Apply(u, s, e); t.found.Keys >= {app} && t.found[app] == v && t.past == s.past && t.log == s.log
  {
    var src := if s.past[v].spec.appName == app then ByApp(v) else ByName(v);
    var apps := u.spec.impactedApps;
    e := WindowReconciles(W.Inputs(u.spec.startTime, 0, [], [], [], [], [], false, true), Sources(apps, app, src),
        true);
    NothingBroken(s.past, apps, app, src, s.window.appStates);
    FindsIt(apps, app, src, s.found);
    assert Fact(u.spec, s.window, InputsOf(u, s, e), OutcomeOf(u, s, e));
    assert Edits([e]) == Edits([e][..0]);
  }

  /** One report of the last cluster in the list, and one run of the aggregator on a version that reads just it. */
  lemma {:induction false} AggregatedReportCounts(prev: P.Fleet, look: P.Look, rep: Report)
    requires look.reports == [rep] && look.spec.targetClusters != [] && rep.clusterName == look.spec.targetClusters[0]
    ensures |P.Aggregate(prev, look).rows| > 0 && P.Aggregate(prev, look).rows[0].clusterName == rep.clusterName
    ensures P.IsLast(look.reports, 0, rep.clusterName)
    ensures prev.rows == [] || prev.rows[0].observedAt != rep.observedAt ==> P.Aggregate(prev, look).rows != prev.rows
  {
    P.RowFacts(prev, look);
    P.RowsMatchTargets(prev, look, 0);
    if P.Aggregate(prev, look).rows[0].state.Missing? {
      assert false;
    } else {
      var j :| P.IsLast(look.reports, j, rep.clusterName)
               && P.Copies(P.Aggregate(prev, look).rows[0], look.reports[j]);
      assert j == 0;
    }
  }

  /** The last two versions are of one object, agree but for the spec, and the second is the stored one. */
  ghost predicate Reedited(s: System, f: Edit, e: Edit)
  {
    && |s.past| >= 2 && e.name in s.store && s.store[e.name] == s.past[|s.past| - 1]
    && s.past[|s.past| - 1].name == e.name && s.past[|s.past| - 1].spec == e.spec
    && s.past[|s.past| - 2] == s.past[|s.past| - 1].(spec := f.spec)
  }

  /** Repeating two edits of one object. */
  lemma {:induction false} EditTwice(u: Setup, s: System, f: Edit, e: Edit)
    requires f.name == e.name
    ensures Reedited(Apply(u, Apply(u, s, PsEdited(f.name, f.spec)), PsEdited(e.name, e.spec)), f, e)
  {
  }

  const NOTHING_SEEN := Telemetry(0, NO_POOL, NO_VIRT, NO_PLATFORM, [], [], [])

  /** A time the rows of the object do not show. */
  function OtherTime(rows: seq<Row>): Time { if rows == [] then 0 else rows[0].observedAt + 1 }

  function Announcement(spec: P.Spec, rows: seq<Row>): Event
    requires spec.targetClusters != []
  {
    AgentWrites(spec.targetClusters[0], Descriptor(spec.appName, "", Synced, Healthy, ""),
                NOTHING_SEEN.(observedAt := OtherTime(rows)))
  }

  /** A late run of the aggregator, on the version before the last, makes a new version with the last one's spec. */
  lemma {:induction false} LateAggregation(u: Setup, s: System, f: Edit, e: Edit)
    requires Reedited(s, f, e) && f.spec.targetClusters != [] && f.spec.appName != ""
    ensures var t := Apply(u, s, Announcement(f.spec, s.past[|s.past| - 1].status.rows));
            var r := Apply(u, t, Aggregates(|s.past| - 2, [|s.reports|], 0, 0, true));
            && |r.past| == |s.past| + 1 && |r.log| == |s.log| + 1
            && var ps, a := r.past[|s.past|], r.log[|s.log|];
               && ps.name == e.name && ps.spec == e.spec && ps.made == Some(|s.log|)
               && |a.rows| > 0 && |a.look.reports| == 1 && a.look.reports[0].appName == f.spec.appName
               && P.IsLast(a.look.reports, 0, a.rows[0].clusterName)
  {
    var v := |s.past| - 2;
    var read := s.past[v];
    var rep := BuildReport(f.spec.targetClusters[0], Descriptor(f.spec.appName, "", Synced, Healthy, ""),
                           NOTHING_SEEN.(observedAt := OtherTime(read.status.rows))).value;
    var news := Announcement(f.spec, read.status.rows);
    var t := s.(written := s.written + [news], reports := s.reports + [rep]);
    assert Apply(u, s, news) == t;
    var late := Aggregates(v, [|s.reports|], 0, 0, true);
    assert CanAggregate(t, late);
    var look := LookOf(t, late);
    assert look.reports == [rep];
    AggregatedReportCounts(read.status, look, rep);
    LateRecord(t, late, look, P.Aggregate(read.status, look), f, e);
  }

  lemma {:induction false} LateRecord(s: System, late: Event, look: P.Look, computed: P.Fleet, f: Edit, e: Edit)
    requires Reedited(s, f, e) && CanAggregate(s, late) && late.version == |s.past| - 2 && late.written
    requires computed.rows != s.past[|s.past| - 2].status.rows
    ensures var r := Record(s, late, look, computed);
            && r.log == s.log + [Aggregation(e.name, late.version, s.past[late.version].status, look, computed.rows)]
            && |r.past| == |s.past| + 1
            && r.past[|s.past|].name == e.name && r.past[|s.past|].spec == e.spec
               && r.past[|s.past|].made == Some(|s.log|)
  {
  }

  /** A run that, by repeating edits already made, brings the window rows that count another application's report. */
  lemma {:induction false} DisagreementBites(u: Setup, events: seq<Event>, app: string, e: Edit, f: Edit)
    returns (more: seq<Event>)
    requires Faithful(u) && app in u.spec.impactedApps
    requires e in Edits(events) && f in Edits(events) && e.name == f.name
    requires (e.name == app || e.spec.appName == app) && !Harmless(f.spec, app)
    ensures Edits(events + more) == Edits(events) && Foreign(After(u, events + more), app)
  {
    var c1, c2 := PsEdited(f.name, f.spec), PsEdited(e.name, e.spec);
    var s0 := After(u, events);
    var s2 := Apply(u, Apply(u, s0, c1), c2);
    EditTwice(u, s0, f, e);
    var c3 := Announcement(f.spec, s2.past[|s2.past| - 1].status.rows);
    var c4 := Aggregates(|s2.past| - 2, [|s2.reports|], 0, 0, true);
    LateAggregation(u, s2, f, e);
    var s4 := Apply(u, Apply(u, s2, c3), c4);
    var c5 := WindowTakes(u, s4, app, |s2.past|);
    more := [c1, c2, c3, c4, c5];
    AfterFive(u, events, c1, c2, c3, c4, c5);
    EditsAppend(events, more);
    EditsOfFive(c1, c2, c3, c4, c5);
    var s5 := Apply(u, s4, c5);
    var k := |s2.log|;
    assert s5.log[k].look.reports[0].appName != app;
  }

  /** Five more events, whatever is done with each. */
  lemma {:induction false} FiveMore(after: seq<Event> -> System, step: (System, Event) -> System, events: seq<Event>,
                                    c1: Event, c2: Event, c3: Event, c4: Event, c5: Event)
    requires forall es, e {:trigger after(es + [e])} :: after(es + [e]) == step(after(es), e)
    ensures after(events + [c1, c2, c3, c4, c5]) == step(step(step(step(step(after(events), c1), c2), c3), c4), c5)
  {
    var e1 := events + [c1];
    var e2 := e1 + [c2];
    var e3 := e2 + [c3];
    var e4 := e3 + [c4];
    assert after(e2) == step(after(e1), c2) && after(e4) == step(after(e3), c4);
    assert e4 + [c5] == events + [c1, c2, c3, c4, c5];
  }

  lemma {:induction false} AfterFive(u: Setup, events: seq<Event>, c1: Event, c2: Event, c3: Event, c4: Event,
                                     c5: Event)
    ensures After(u, events + [c1, c2, c3, c4, c5])
         == Apply(u, Apply(u, Apply(u, Apply(u, Apply(u, After(u, events), c1), c2), c3), c4), c5)
  {
    var after, step := (es: seq<Event>) => After(u, es), (s: System, e: Event) => Apply(u, s, e);
    forall es, e ensures after(es + [e]) == step(after(es), e) {
      OneMore(u, es, e);
    }
    FiveMore(after, step, events, c1, c2, c3, c4, c5);
  }

  lemma {:induction false} EditsOfFive(c1: Event, c2: Event, c3: Event, c4: Event, c5: Event)
    ensures Edits([c1, c2, c3, c4, c5]) == EditOf(c1) + EditOf(c2) + EditOf(c3) + EditOf(c4) + EditOf(c5)
  {
    assert [c1, c2, c3, c4, c5] == [] + [c1] + [c2] + [c3] + [c4] + [c5];
    EditsOneMore([], c1);
    EditsOneMore([] + [c1], c2);
    EditsOneMore([] + [c1] + [c2], c3);
    EditsOneMore([] + [c1] + [c2] + [c3], c4);
    EditsOneMore([] + [c1] + [c2] + [c3] + [c4], c5);
  }

  lemma {:induction false} EditsOneMore(events: seq<Event>, e: Event)
    ensures Edits(events + [e]) == Edits(events) + EditOf(e)
  {
    assert (events + [e])[..|events|] == events;
  }

  /** Nobody writes anything into an object that has not been written into it before. */
  ghost predicate NothingNew(events: seq<Event>, more: seq<Event>) { Edits(events + more) == Edits(events) }

  /**
   * The reports behind an application's rows are its own, however the run goes on without new edits, if and only if
   * the edits agree on it: no object found for it, by its application or by its own name, has ever had a spec that
   * names another application and has targets.
   */
  lemma {:induction false} OwnReportsExactly(u: Setup, events: seq<Event>, app: string)
    requires Faithful(u) && app in u.spec.impactedApps
    ensures Agree(Edits(events), app)
       <==> forall more :: NothingNew(events, more) ==> !Foreign(After(u, events + more), app)
  {
    if Agree(Edits(events), app) {
      forall more | NothingNew(events, more) ensures !Foreign(After(u, events + more), app) {
        AgreementSuffices(u, events + more, app);
      }
    } else {
      var e, f :| e in Edits(events) && f in Edits(events) && e.name == f.name
                  && (e.name == app || e.spec.appName == app) && !Harmless(f.spec, app);
      var more := DisagreementBites(u, events, app, e, f);
      assert NothingNew(events, more);
    }
  }

  // ----- which applications have rows -----

  /** Event `i` stored a reconcile of the open window that found an object for the application. */
  ghost predicate Finds(u: Setup, events: seq<Event>, i: int, app: string)
  {
    0 <= i < |events| && FindsIn(u, After(u, events[..i]), events[i], app) && events[i].written
  }

  /** The reconcile gets through and finds an object for the application. */
  ghost predicate FindsIn(u: Setup, s: System, e: Event, app: string)
  {
    && CanReconcile(u, s, e) && e.inputs.now >= u.spec.startTime && OutcomeOf(u, s, e).Done?
    && exists t ::
        0 <= t < |e.sources| && u.spec.impactedApps[t] == app
        && (e.sources[t].ByApp? || e.sources[t].ByName?)
  }

  ghost predicate EverFound(u: Setup, events: seq<Event>, app: string)
  {
    exists i :: Finds(u, events, i, app)
  }

  lemma {:induction false} MergeFoundKeys(apps: seq<string>, sources: seq<Source>, found: map<string, nat>, app: string)
    requires |apps| == |sources|
    ensures app in MergeFound(apps, sources, found)
       <==> app in found || exists t ::
           0 <= t < |sources| && apps[t] == app
           && (sources[t].ByApp? || sources[t].ByName?)
  {
    if apps != [] {
      var n := |apps| - 1;
      MergeFoundKeys(apps[..n], sources[..n], found, app);
    }
  }

  lemma {:induction false} FindsPrefix(u: Setup, events: seq<Event>, app: string)
    requires events != []
    ensures forall i :: i < |events| - 1 ==> (Finds(u, events, i, app) <==> Finds(u, events[..|events| - 1], i, app))
  {
    forall i | 0 <= i < |events| - 1 ensures Finds(u, events, i, app) <==> Finds(u, events[..|events| - 1], i, app) {
      assert events[..|events| - 1][..i] == events[..i];
    }
  }

  lemma {:induction false} EverFoundStep(u: Setup, events: seq<Event>, app: string)
    requires events != []
    ensures EverFound(u, events, app)
       <==> EverFound(u, events[..|events| - 1], app) || Finds(u, events, |events| - 1, app)
  {
    FindsPrefix(u, events, app);
    if EverFound(u, events[..|events| - 1], app) {
      var i :| Finds(u, events[..|events| - 1], i, app);
      assert Finds(u, events, i, app);
    }
  }

  lemma {:induction false} FoundByStep(u: Setup, s: System, e: Event, app: string)
    requires CanReconcile(u, s, e) && e.inputs.now >= u.spec.startTime && OutcomeOf(u, s, e).Done?
    ensures app in FoundBy(u, s, e) <==> app in s.found || FindsIn(u, s, e, app)
  {
    MergeFoundKeys(u.spec.impactedApps, e.sources, s.found, app);
  }

  lemma {:induction false} FoundAfterStep(u: Setup, s: System, e: Event, app: string)
    ensures app in Apply(u, s, e).found
       <==> app in s.found || (e.WindowReconciles? && e.written && FindsIn(u, s, e, app))
  {
    if CanReconcile(u, s, e) && e.inputs.now >= u.spec.startTime && OutcomeOf(u, s, e).Done? {
      FoundByStep(u, s, e, app);
    }
  }

  /** The window has a state for exactly the applications some stored reconcile has found an object for. */
  lemma {:induction false} FoundExactly(u: Setup, events: seq<Event>, app: string)
    ensures app in After(u, events).found <==> EverFound(u, events, app)
  {
    if events != [] {
      var n := |events| - 1;
      FoundExactly(u, events[..n], app);
      EverFoundStep(u, events, app);
      FoundAfterStep(u, After(u, events[..n]), events[n], app);
    }
  }

  /**
   * When a reconcile off the hub computes Passed, an application has rows if and only if this reconcile or a stored
   * one before it found an object for it. An impacted application for which none was ever found does not count.
   */
  lemma {:induction false} RowsExactlyIfFound(u: Setup, events: seq<Event>, e: Event, app: string)
    requires Faithful(u)
    requires CanReconcile(u, After(u, events), e) && e.inputs.now >= u.spec.startTime && !e.inputs.hub
    requires var o := OutcomeOf(u, After(u, events), e);
             o.Done? && RangesProperly(e.inputs, o.status.appStates) && o.status.validation.passed
    ensures var states := OutcomeOf(u, After(u, events), e).status.appStates;
            app in states && states[app].rows != [] <==>
                EverFound(u, events, app)
                || FindsIn(u, After(u, events), e, app)
  {
    var s := After(u, events);
    PassedIsBacked(u, events, e);
    FoundExactly(u, events, app);
    FoundByStep(u, s, e, app);
    KeysAreFound(u, s, e, OutcomeOf(u, s, e).status);
  }

  lemma {:induction false} KeysAreFound(u: Setup, s: System, e: Event, after: Status)
    requires CanReconcile(u, s, e) && Backed(u, s, e, after) && after.validation.passed && !e.inputs.hub
    ensures forall a :: a in FoundBy(u, s, e) <==> a in after.appStates && after.appStates[a].rows != []
  {
  }
}
