/**
 * The tri-state of the gates over the whole map: when a gate that is not True is False and when it is Unknown. For
 * eight of the nine gates no iteration order matters; for `AllChangesApplied` the order decides, and exactly when it
 * does is proved too.
 */
module GateStates {
  import opened Base
  import opened Model
  import opened Gates
  import opened GateTheorems
  import O = GateOrders

  /** The gates that stay Unknown unless some row carries their telemetry. */
  predicate NeedsTelemetry(g: Gate)
  {
    g == ClusterOperatorsHealthy || g == MCPUpdatedOnTime || g == VirtImpactPassed
  }

  /** The row is a reason to call the gate False. Health that is merely not known is none. */
  predicate Against(g: Gate, start: Time, row: Row)
  {
    if g == HealthCheckPassed
    then row.health != Healthy && row.health != HealthUnset && row.health != HealthUnknown
    else !RowSatisfies(g, start, row)
  }

  ghost predicate SomeAgainst(g: Gate, start: Time, states: map<string, AppState>)
  {
    exists a, r :: RowIn(states, a, r) && Against(g, start, r)
  }

  // ----- one row -----

  /** A visit to a bad row makes the gate False; no other visit does, and none takes False back. */
  ghost predicate Condemns(visit: Visitor, g: Gate, bad: Row -> bool)
  {
    forall v, app, row :: Settle(g, v, visit(app, row)).status == GateFalse <==> v.status == GateFalse || bad(row)
  }

  function Bad(g: Gate, start: Time): Row -> bool
  {
    row => Against(g, start, row)
  }

  /** When every finding says False, one finding is enough and nothing else will do. */
  lemma {:induction false} SettleFalse(g: Gate, first: Verdict, fs: seq<Finding>)
    requires forall f :: f in fs ==> f.gate == g && f.verdict.status == GateFalse
    ensures Settle(g, first, fs).status == GateFalse <==> first.status == GateFalse || fs != []
  {
    if fs != [] {
      assert fs[|fs| - 1] in fs;
    }
  }

  lemma {:induction false} HealthSettles(first: Verdict, start: Time, app: string, row: Row)
    ensures Settle(HealthCheckPassed, first, HealthFindings(app, row)).status == GateFalse
       <==> first.status == GateFalse || Against(HealthCheckPassed, start, row)
  {
    var fs := HealthFindings(app, row);
    if fs != [] {
      assert |fs| == 1 && fs[..0] == [];
    }
  }

  /** But for health, what is found against a row says False. */
  lemma {:induction false} PartSaysFalse(g: Gate, start: Time, app: string, row: Row, f: Finding)
    requires !LastWriter(g) && g != HealthCheckPassed && f in PartFor(g, start, app, row)
    ensures f.gate == g && f.verdict.status == GateFalse
  {
    match g {
      case ClusterOperatorsHealthy =>
      case AllChangesApplied =>
      case MCPUpdatedOnTime =>
      case EventsClean =>
      case ObjectsConverged =>
      case DependenciesReady =>
      case VirtImpactPassed =>
      case NoActiveNodeMaintenance =>
    }
  }

  lemma {:induction false} PartSettles(g: Gate, first: Verdict, start: Time, app: string, row: Row, fs: seq<Finding>)
    requires !LastWriter(g) && g != HealthCheckPassed && fs == PartFor(g, start, app, row)
    ensures Settle(g, first, fs).status == GateFalse <==> first.status == GateFalse || fs != []
  {
    forall f | f in fs ensures f.gate == g && f.verdict.status == GateFalse {
      PartSaysFalse(g, start, app, row, f);
    }
    SettleFalse(g, first, fs);
  }

  lemma {:induction false} RowCondemns(g: Gate, first: Verdict, start: Time, app: string, row: Row)
    requires !LastWriter(g)
    ensures Settle(g, first, RowFindings(start, app, row)).status == GateFalse
       <==> first.status == GateFalse || Against(g, start, row)
  {
    SettleRow(g, first, start, app, row);
    if g == HealthCheckPassed {
      HealthSettles(first, start, app, row);
    } else {
      NothingFound(g, start, app, row);
      PartSettles(g, first, start, app, row, PartFor(g, start, app, row));
    }
  }

  lemma {:induction false} RowsAreCondemned(g: Gate, start: Time)
    requires !LastWriter(g)
    ensures Condemns(VisitFrom(start), g, Bad(g, start))
  {
    forall v, app, row ensures Settle(g, v, VisitFrom(start)(app, row)).status == GateFalse
                          <==> v.status == GateFalse || Bad(g, start)(row) {
      RowCondemns(g, v, start, app, row);
    }
  }

  // ----- all rows -----

  lemma {:induction false} RowsFalse(visit: Visitor, g: Gate, bad: Row -> bool, first: Verdict, app: string,
                                     rows: seq<Row>)
    requires Condemns(visit, g, bad)
    ensures Settle(g, first, RowsFindings(visit, app, rows)).status == GateFalse
       <==> first.status == GateFalse || exists r :: r in rows && bad(r)
  {
    if rows != [] {
      var n := |rows| - 1;
      assert rows == rows[..n] + [rows[n]];
      RowsFalse(visit, g, bad, first, app, rows[..n]);
      SettleConcat(g, first, RowsFindings(visit, app, rows[..n]), visit(app, rows[n]));
    }
  }

  lemma {:induction false} ScanFalse(visit: Visitor, g: Gate, bad: Row -> bool, first: Verdict, hub: bool,
                                     order: seq<string>, states: map<string, AppState>)
    requires Condemns(visit, g, bad) && g != AllChangesApplied
    ensures Settle(g, first, Scan(visit, hub, order, states)).status == GateFalse
       <==> first.status == GateFalse || exists a, r :: a in order && r in RowsOf(states, a) && bad(r)
  {
    if order != [] {
      var n := |order| - 1;
      assert order == order[..n] + [order[n]];
      var rows := RowsOf(states, order[n]);
      ScanStep(visit, g, first, hub, order, states);
      var head := Settle(g, first, Scan(visit, hub, order[..n], states));
      ScanFalse(visit, g, bad, first, hub, order[..n], states);
      SettleUntouched(g, head, MissingFindings(hub, order[n], rows));
      RowsFalse(visit, g, bad, head, order[n], rows);
    }
  }

  lemma {:induction false} FinishFalse(g: Gate, v: Verdict, reported: bool, total: nat)
    requires g != AllChangesApplied && (total == 0 ==> v.status != GateFalse)
    ensures Finish(g, v, reported, total).status == GateFalse
       <==> v.status == GateFalse && (NeedsTelemetry(g) ==> reported)
  {
  }

  lemma {:induction false} VisitedAgainst(g: Gate, start: Time, order: seq<string>, states: map<string, AppState>)
    requires Enumerates(order, states.Keys)
    ensures SomeAgainst(g, start, states)
       <==> exists a, r :: a in order && r in RowsOf(states, a) && Bad(g, start)(r)
  {
    if a, r :| RowIn(states, a, r) && Against(g, start, r) {
      assert a in order && r in RowsOf(states, a) && Bad(g, start)(r);
    }
    if a, r :| a in order && r in RowsOf(states, a) && Bad(g, start)(r) {
      assert RowIn(states, a, r) && Against(g, start, r);
    }
  }

  lemma {:induction false} SettledFalse(g: Gate, spec: WindowSpec, hub: bool, order: seq<string>,
                                        states: map<string, AppState>)
    requires !LastWriter(g) && g != AllChangesApplied
    requires Enumerates(order, states.Keys)
    ensures Settle(g, InitialVerdict(spec, g), Scan(VisitFrom(spec.startTime), hub, order, states)).status == GateFalse
       <==> SomeAgainst(g, spec.startTime, states)
  {
    RowsAreCondemned(g, spec.startTime);
    ScanFalse(VisitFrom(spec.startTime), g, Bad(g, spec.startTime), InitialVerdict(spec, g), hub, order, states);
    VisitedAgainst(g, spec.startTime, order, states);
  }

  lemma {:induction false} AgainstIsARow(g: Gate, start: Time, states: map<string, AppState>)
    requires SomeAgainst(g, start, states)
    ensures SomeRow(states)
  {
  }

  /**
   * Besides `AllChangesApplied`, a gate is False exactly when some row speaks against it, whatever the order, and,
   * where telemetry is needed, some row carries it: an unready virt-handler alone leaves the gate Unknown.
   */
  lemma {:induction false} FalseMeaning(g: Gate, spec: WindowSpec, hub: bool, order: seq<string>,
                                        states: map<string, AppState>)
    requires !LastWriter(g) && g != AllChangesApplied
    requires Enumerates(order, states.Keys)
    ensures FinalVerdict(spec, hub, order, states, g).status == GateFalse
       <==> SomeAgainst(g, spec.startTime, states) && (NeedsTelemetry(g) ==> SomeReport(g, states))
  {
    SettledFalse(g, spec, hub, order, states);
    RowsExist(order, states, g);
    if SomeAgainst(g, spec.startTime, states) {
      AgainstIsARow(g, spec.startTime, states);
    }
    FinishFalse(g, Settle(g, InitialVerdict(spec, g), Scan(VisitFrom(spec.startTime), hub, order, states)),
                AnyReported(g, Flatten(order, states)), |Flatten(order, states)|);
  }

  /** Some row's health is unset or reported as unknown. */
  ghost predicate SomeHealthUnknown(states: map<string, AppState>)
  {
    exists a, r :: RowIn(states, a, r) && (r.health == HealthUnset || r.health == HealthUnknown)
  }

  /** The row carries no telemetry a gate that needs some could go by. */
  predicate SaysNothing(g: Gate, row: Row)
  {
    match g
    case ClusterOperatorsHealthy => row.platform.operators == []
    case MCPUpdatedOnTime => row.pool.name == "" && row.pool.phase.PoolUnset?
    case VirtImpactPassed => row.virt.hyperConverged.HcoUnset? || row.virt.hyperConverged.HcoUnknown?
    case _ => false
  }

  ghost predicate NobodySaysAnything(g: Gate, states: map<string, AppState>)
  {
    forall a, r :: RowIn(states, a, r) ==> SaysNothing(g, r)
  }

  lemma {:induction false} NoTelemetry(g: Gate, states: map<string, AppState>)
    requires NeedsTelemetry(g)
    ensures NobodySaysAnything(g, states) <==> !SomeReport(g, states)
  {
    forall row ensures SaysNothing(g, row) <==> !Reported(g, row) {
    }
  }

  /**
   * And it is Unknown exactly when its telemetry is missing everywhere, when there is no row at all, or, for the health
   * gate, when some row's health is not known and none is known to be bad. Node maintenance is never Unknown.
   */
  lemma {:induction false} UnknownMeaning(g: Gate, spec: WindowSpec, hub: bool, order: seq<string>,
                                          states: map<string, AppState>)
    requires !LastWriter(g) && g != AllChangesApplied
    requires Enumerates(order, states.Keys)
    ensures FinalVerdict(spec, hub, order, states, g).status == GateUnknown
       <==> match g
            case ClusterOperatorsHealthy | MCPUpdatedOnTime | VirtImpactPassed => NobodySaysAnything(g, states)
            case HealthCheckPassed =>
              !SomeAgainst(g, spec.startTime, states) && (!SomeRow(states) || SomeHealthUnknown(states))
            case NoActiveNodeMaintenance => false
            case _ => !SomeRow(states)
  {
    if NeedsTelemetry(g) {
      NoTelemetry(g, states);
    }
    GateMeaning(g, spec, hub, order, states);
    FalseMeaning(g, spec, hub, order, states);
    RowsAgainst(g, spec.startTime, states);
  }

  /** Rows a gate is not satisfied with speak against it, unless their health is not known. */
  lemma {:induction false} RowsAgainst(g: Gate, start: Time, states: map<string, AppState>)
    ensures !AllRows(states, GateTheorems.Good(g, start))
       <==> SomeAgainst(g, start, states) || (g == HealthCheckPassed && SomeHealthUnknown(states))
    ensures SomeAgainst(g, start, states) || SomeHealthUnknown(states) ==> SomeRow(states)
  {
    if a, r :| RowIn(states, a, r) && !GateTheorems.Good(g, start)(r) {
      assert Against(g, start, r) || (g == HealthCheckPassed && (r.health == HealthUnset || r.health == HealthUnknown));
    }
    if a, r :| RowIn(states, a, r) && Against(g, start, r) {
      assert !GateTheorems.Good(g, start)(r);
    }
    if a, r :| RowIn(states, a, r) && (r.health == HealthUnset || r.health == HealthUnknown) {
      assert g == HealthCheckPassed ==> !GateTheorems.Good(g, start)(r);
    }
  }

  // ----- AllChangesApplied: the application visited last decides between False and Unknown -----

  /** Some row of the application is not in sync. */
  predicate Troubled(states: map<string, AppState>, app: string)
  {
    exists r :: r in RowsOf(states, app) && r.state != InSync
  }

  /** The application has no rows, and the cluster is not the hub, which may have such applications. */
  predicate Lacking(hub: bool, states: map<string, AppState>, app: string)
  {
    !hub && RowsOf(states, app) == []
  }

  /** What an application makes of the gate: False, Unknown or nothing. */
  function OnChanges(hub: bool, states: map<string, AppState>): O.Words
  {
    app => if Lacking(hub, states, app) then Some(false) else if Troubled(states, app) then Some(true) else None
  }

  function StatusAfter(first: GateStatus, word: Option<bool>): GateStatus
  {
    if word.None? then first else if word.value then GateFalse else GateUnknown
  }

  lemma {:induction false} RowsOnChanges(start: Time, first: Verdict, app: string, rows: seq<Row>)
    ensures Settle(AllChangesApplied, first, RowsFindings(VisitFrom(start), app, rows)).status
         == if exists r :: r in rows && r.state != InSync then GateFalse else first.status
  {
    var g, visit := AllChangesApplied, VisitFrom(start);
    RowsAreCondemned(g, start);
    RowsFalse(visit, g, Bad(g, start), first, app, rows);
    RowsAreJudged(g, start);
    RowsVerdict(visit, g, GateTheorems.Good(g, start), first, app, rows);
    if forall r :: r in rows ==> r.state == InSync {
      forall r | r in rows ensures !Bad(g, start)(r) && GateTheorems.Good(g, start)(r) {
      }
    } else {
      var r :| r in rows && r.state != InSync;
      assert Bad(g, start)(r);
    }
  }

  lemma {:induction false} AppOnChanges(start: Time, first: Verdict, hub: bool, app: string,
                                        states: map<string, AppState>)
    ensures var rows := RowsOf(states, app);
            var missing := Settle(AllChangesApplied, first, MissingFindings(hub, app, rows));
            Settle(AllChangesApplied, missing, RowsFindings(VisitFrom(start), app, rows)).status
            == StatusAfter(first.status, OnChanges(hub, states)(app))
  {
    var rows := RowsOf(states, app);
    var fs := MissingFindings(hub, app, rows);
    assert fs != [] ==> fs[..0] == [] && |fs| == 1;
    RowsOnChanges(start, Settle(AllChangesApplied, first, fs), app, rows);
  }

  lemma {:induction false} ScanOnChanges(start: Time, first: Verdict, hub: bool, order: seq<string>,
                                         states: map<string, AppState>)
    ensures Settle(AllChangesApplied, first, Scan(VisitFrom(start), hub, order, states)).status
         == StatusAfter(first.status, O.LastWord(OnChanges(hub, states), order))
  {
    if order != [] {
      var n := |order| - 1;
      ScanStep(VisitFrom(start), AllChangesApplied, first, hub, order, states);
      ScanOnChanges(start, first, hub, order[..n], states);
      var head := Settle(AllChangesApplied, first, Scan(VisitFrom(start), hub, order[..n], states));
      AppOnChanges(start, head, hub, order[n], states);
    }
  }

  lemma {:induction false} ChangesByLastWord(spec: WindowSpec, hub: bool, order: seq<string>,
                                             states: map<string, AppState>)
    requires Enumerates(order, states.Keys)
    ensures FinalVerdict(spec, hub, order, states, AllChangesApplied).status
         == if !SomeRow(states) then GateUnknown
            else StatusAfter(if spec.impactedApps == [] then GateUnknown else GateTrue,
                             O.LastWord(OnChanges(hub, states), order))
  {
    ScanOnChanges(spec.startTime, InitialVerdict(spec, AllChangesApplied), hub, order, states);
    RowsExist(order, states, AllChangesApplied);
  }

  /** Application `i` is troubled, and after it none without rows is visited. */
  ghost predicate TroubleStands(hub: bool, order: seq<string>, states: map<string, AppState>, i: int)
  {
    0 <= i < |order| && Troubled(states, order[i]) && forall j :: i < j < |order| ==> !Lacking(hub, states, order[j])
  }

  /** Application `i` has no rows, and after it none that is troubled is visited. */
  ghost predicate LackStands(hub: bool, order: seq<string>, states: map<string, AppState>, i: int)
  {
    0 <= i < |order| && Lacking(hub, states, order[i]) && forall j :: i < j < |order| ==> !Troubled(states, order[j])
  }

  lemma {:induction false} StandingIsLastWord(hub: bool, order: seq<string>, states: map<string, AppState>)
    ensures O.LastWord(OnChanges(hub, states), order) == Some(true)
       <==> exists i :: TroubleStands(hub, order, states, i)
    ensures O.LastWord(OnChanges(hub, states), order) == Some(false)
       <==> exists i :: LackStands(hub, order, states, i)
  {
    if order != [] {
      var n := |order| - 1;
      StandingIsLastWord(hub, order[..n], states);
      StandingStep(hub, order, states);
    }
  }

  lemma {:induction false} StandingStep(hub: bool, order: seq<string>, states: map<string, AppState>)
    requires order != []
    ensures var n, last := |order| - 1, order[|order| - 1];
            && ((exists i :: TroubleStands(hub, order, states, i))
                <==> Troubled(states, last)
                     || (!Lacking(hub, states, last) && exists i :: TroubleStands(hub, order[..n], states, i)))
            && ((exists i :: LackStands(hub, order, states, i))
                <==> Lacking(hub, states, last)
                     || (!Troubled(states, last) && exists i :: LackStands(hub, order[..n], states, i)))
  {
    var n, last := |order| - 1, order[|order| - 1];
    if Troubled(states, last) {
      assert TroubleStands(hub, order, states, n);
    }
    if Lacking(hub, states, last) {
      assert LackStands(hub, order, states, n);
    }
    forall i ensures TroubleStands(hub, order, states, i) && i < n ==> TroubleStands(hub, order[..n], states, i) {
    }
    forall i ensures LackStands(hub, order, states, i) && i < n ==> LackStands(hub, order[..n], states, i) {
    }
    if !Lacking(hub, states, last) {
      forall i ensures TroubleStands(hub, order[..n], states, i) ==> TroubleStands(hub, order, states, i) {
      }
    }
    if !Troubled(states, last) {
      forall i ensures LackStands(hub, order[..n], states, i) ==> LackStands(hub, order, states, i) {
      }
    }
  }

  /** A row that is not in sync makes the gate False unless an application without rows comes after it. */
  lemma {:induction false} ChangesFalseMeaning(spec: WindowSpec, hub: bool, order: seq<string>,
                                               states: map<string, AppState>)
    requires Enumerates(order, states.Keys)
    ensures FinalVerdict(spec, hub, order, states, AllChangesApplied).status == GateFalse
       <==> exists i :: TroubleStands(hub, order, states, i)
  {
    ChangesByLastWord(spec, hub, order, states);
    StandingIsLastWord(hub, order, states);
    if i :| TroubleStands(hub, order, states, i) {
      var r :| r in RowsOf(states, order[i]) && r.state != InSync;
      assert RowIn(states, order[i], r);
    }
  }

  lemma {:induction false} TroubledRows(start: Time, order: seq<string>, states: map<string, AppState>)
    requires Enumerates(order, states.Keys)
    ensures AllRows(states, GateTheorems.Good(AllChangesApplied, start))
       <==> forall a :: a in order ==> !Troubled(states, a)
  {
    VisitedRowsAreAllRows(order, states, GateTheorems.Good(AllChangesApplied, start));
    if a :| a in order && Troubled(states, a) {
      var r :| r in RowsOf(states, a) && r.state != InSync;
      assert !GateTheorems.Good(AllChangesApplied, start)(r);
    }
  }

  /** With rows, no word and no scope, nothing is out of sync. */
  lemma {:induction false} NoWordMeans(hub: bool, order: seq<string>, states: map<string, AppState>)
    ensures O.LastWord(OnChanges(hub, states), order).None?
       <==> (forall a :: a in order ==> !Troubled(states, a)) && !exists i :: LackStands(hub, order, states, i)
  {
    StandingIsLastWord(hub, order, states);
    var last := O.LastWord(OnChanges(hub, states), order);
    if last.Some? {
      assert if last.value then last == Some(true) else last == Some(false);
    }
    if forall a :: a in order ==> !Troubled(states, a) {
      forall i ensures !TroubleStands(hub, order, states, i) {
        if 0 <= i < |order| {
          assert order[i] in order;
        }
      }
    } else if last.None? {
      var i :| 0 <= i < |order| && Troubled(states, order[i]);
      O.SilentOrder(OnChanges(hub, states), order, i);
    }
  }

  /**
   * It is Unknown when there is no row at all, when an application without rows is visited and no troubled one after
   * it, and when no scope is configured and no row is out of sync.
   */
  lemma {:induction false} ChangesUnknownMeaning(spec: WindowSpec, hub: bool, order: seq<string>,
                                                 states: map<string, AppState>)
    requires Enumerates(order, states.Keys)
    ensures FinalVerdict(spec, hub, order, states, AllChangesApplied).status == GateUnknown
       <==> || !SomeRow(states)
            || (exists i :: LackStands(hub, order, states, i))
            || (spec.impactedApps == [] && AllRows(states, GateTheorems.Good(AllChangesApplied, spec.startTime)))
  {
    ChangesByLastWord(spec, hub, order, states);
    StandingIsLastWord(hub, order, states);
    NoWordMeans(hub, order, states);
    TroubledRows(spec.startTime, order, states);
  }

  /** A status that follows the last word is the same in all orders, unless both words are there. */
  lemma {:induction false} FollowsLastWord(status: seq<string> -> GateStatus, first: GateStatus, word: O.Words,
                                           keys: set<string>)
    requires first != GateFalse
    requires forall o :: Enumerates(o, keys) ==> status(o) == StatusAfter(first, O.LastWord(word, o))
    ensures O.SameStatusInAllOrders(status, keys)
       <==> !exists a, b :: a in keys && b in keys && word(a) == Some(true) && word(b) == Some(false)
  {
    if a, b :| a in keys && b in keys && word(a) == Some(true) && word(b) == Some(false) {
      var o := O.OrderEndingIn(keys, a);
      var o' := O.OrderEndingIn(keys, b);
      assert status(o) == GateFalse && status(o') == GateUnknown;
    } else {
      forall a, b | a in keys && b in keys && word(a).Some? && word(b).Some? ensures word(a) == word(b) {
        var x, y := word(a).value, word(b).value;
        assert !(word(a) == Some(true) && word(b) == Some(false));
        assert !(word(b) == Some(true) && word(a) == Some(false));
      }
      O.SameExactlyIfAgreed(word, keys);
      forall o, o' | Enumerates(o, keys) && Enumerates(o', keys) ensures status(o) == status(o') {
        assert O.LastWord(word, o) == O.LastWord(word, o');
      }
    }
  }

  /** Off the hub, one application is troubled and one has no rows. */
  ghost predicate Divided(hub: bool, states: map<string, AppState>)
  {
    !hub && !NoAppEmpty(states) && exists a :: a in states && Troubled(states, a)
  }

  lemma {:induction false} DividedWords(hub: bool, states: map<string, AppState>)
    ensures Divided(hub, states)
       <==> exists a, b :: a in states.Keys && b in states.Keys && OnChanges(hub, states)(a) == Some(true)
                           && OnChanges(hub, states)(b) == Some(false)
    ensures Divided(hub, states) ==> SomeRow(states)
  {
    if Divided(hub, states) {
      var a :| a in states && Troubled(states, a);
      var b :| b in states && states[b].rows == [];
      assert OnChanges(hub, states)(a) == Some(true) && OnChanges(hub, states)(b) == Some(false);
      var r :| r in RowsOf(states, a) && r.state != InSync;
      assert RowIn(states, a, r);
    }
  }

  /**
   * The map order can change this gate if and only if, off the hub, one application is troubled and one has no rows.
   */
  lemma {:induction false} ChangesIgnoreOrderExactly(spec: WindowSpec, hub: bool, states: map<string, AppState>)
    ensures O.SameStatusInAllOrders(O.StatusIn(AllChangesApplied, spec, hub, states), states.Keys)
       <==> !Divided(hub, states)
  {
    var status := O.StatusIn(AllChangesApplied, spec, hub, states);
    forall o | Enumerates(o, states.Keys)
      ensures status(o) == if !SomeRow(states) then GateUnknown
                           else StatusAfter(if spec.impactedApps == [] then GateUnknown else GateTrue,
                                            O.LastWord(OnChanges(hub, states), o))
    {
      ChangesByLastWord(spec, hub, o, states);
    }
    DividedWords(hub, states);
    if SomeRow(states) {
      FollowsLastWord(status, if spec.impactedApps == [] then GateUnknown else GateTrue, OnChanges(hub, states),
                      states.Keys);
    } else {
      forall o, o' | Enumerates(o, states.Keys) && Enumerates(o', states.Keys) ensures status(o) == status(o') {
      }
    }
  }
}
