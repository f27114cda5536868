/**
 * When Go's random map order can change the verdict. Only the last row of each application that reports on a
 * last-writer gate counts, and among these the one visited last decides.
 */
module GateOrders {
  import opened Base
  import opened Model
  import opened Gates
  import opened GateTheorems
  import I = GateIssues

  // ----- orders to choose from -----

  lemma {:induction false} OrderOf(keys: set<string>) returns (order: seq<string>)
    ensures Enumerates(order, keys)
    decreases |keys|
  {
    if keys == {} {
      order := [];
    } else {
      var k :| k in keys;
      order := OrderEndingIn(keys, k);
    }
  }

  lemma {:induction false} OrderEndingIn(keys: set<string>, k: string) returns (order: seq<string>)
    requires k in keys
    ensures Enumerates(order, keys) && order != [] && order[|order| - 1] == k
    decreases |keys|, 0
  {
    var front := OrderOf(keys - {k});
    order := front + [k];
  }

  lemma {:induction false} OrderEndingInTwo(keys: set<string>, k: string, l: string) returns (order: seq<string>)
    requires k in keys && l in keys && k != l
    ensures Enumerates(order, keys) && |order| >= 2 && order[|order| - 2] == k && order[|order| - 1] == l
  {
    var front := OrderEndingIn(keys - {l}, k);
    order := front + [l];
  }

  // ----- the last word along an order -----

  /** What the members of an order say, if anything. */
  type Words = string -> Option<bool>

  function LastWord(word: Words, order: seq<string>): Option<bool>
  {
    if order == [] then None
    else if word(order[|order| - 1]).Some? then word(order[|order| - 1])
    else LastWord(word, order[..|order| - 1])
  }

  /** Member `i` of the order has a word, and none after it does. */
  ghost predicate SpeaksLast(word: Words, order: seq<string>, i: int)
  {
    0 <= i < |order| && word(order[i]).Some? && forall j :: i < j < |order| ==> word(order[j]).None?
  }

  lemma {:induction false} LastWordOf(word: Words, order: seq<string>, i: int)
    requires SpeaksLast(word, order, i)
    ensures LastWord(word, order) == word(order[i])
  {
    if i < |order| - 1 {
      LastWordOf(word, order[..|order| - 1], i);
    }
  }

  lemma {:induction false} LastSpeaker(word: Words, order: seq<string>) returns (i: int)
    requires LastWord(word, order).Some?
    ensures SpeaksLast(word, order, i) && LastWord(word, order) == word(order[i])
  {
    if word(order[|order| - 1]).Some? {
      i := |order| - 1;
    } else {
      i := LastSpeaker(word, order[..|order| - 1]);
    }
  }

  lemma {:induction false} SilentOrder(word: Words, order: seq<string>, i: int)
    requires LastWord(word, order).None? && 0 <= i < |order|
    ensures word(order[i]).None?
  {
    if i < |order| - 1 {
      SilentOrder(word, order[..|order| - 1], i);
    }
  }

  lemma {:induction false} SomeoneSpeaks(word: Words, order: seq<string>, keys: set<string>)
    requires Enumerates(order, keys)
    ensures LastWord(word, order).Some? <==> exists a :: a in keys && word(a).Some?
  {
    if LastWord(word, order).Some? {
      var i := LastSpeaker(word, order);
      assert order[i] in keys;
    } else {
      forall a | a in keys ensures word(a).None? {
        assert a in order;
        var i :| 0 <= i < |order| && order[i] == a;
        SilentOrder(word, order, i);
      }
    }
  }

  /** All that speak say the same. */
  predicate Agreed(word: Words, keys: set<string>)
  {
    forall a, b :: a in keys && b in keys && word(a).Some? && word(b).Some? ==> word(a) == word(b)
  }

  ghost predicate SameInAllOrders(word: Words, keys: set<string>)
  {
    forall o, o' :: Enumerates(o, keys) && Enumerates(o', keys) ==> LastWord(word, o) == LastWord(word, o')
  }

  lemma {:induction false} AgreementFixesWord(word: Words, keys: set<string>, o: seq<string>, o': seq<string>)
    requires Agreed(word, keys) && Enumerates(o, keys) && Enumerates(o', keys)
    ensures LastWord(word, o) == LastWord(word, o')
  {
    SomeoneSpeaks(word, o, keys);
    SomeoneSpeaks(word, o', keys);
    if LastWord(word, o).Some? {
      var i := LastSpeaker(word, o);
      var i' := LastSpeaker(word, o');
      assert o[i] in keys && o'[i'] in keys;
    }
  }

  lemma {:induction false} SameExactlyIfAgreed(word: Words, keys: set<string>)
    ensures SameInAllOrders(word, keys) <==> Agreed(word, keys)
  {
    if Agreed(word, keys) {
      forall o, o' | Enumerates(o, keys) && Enumerates(o', keys) ensures LastWord(word, o) == LastWord(word, o') {
        AgreementFixesWord(word, keys, o, o');
      }
    } else {
      var a, b :| a in keys && b in keys && word(a).Some? && word(b).Some? && word(a) != word(b);
      var o := OrderEndingIn(keys, a);
      var o' := OrderEndingIn(keys, b);
      assert LastWord(word, o) != LastWord(word, o');
    }
  }

  /** Someone speaks, and all that do say yes. */
  ghost predicate Unanimous(word: Words, keys: set<string>)
  {
    (exists a :: a in keys && word(a).Some?) && forall a :: a in keys && word(a).Some? ==> word(a) == Some(true)
  }

  lemma {:induction false} UnanimousSaysYes(word: Words, keys: set<string>, o: seq<string>)
    requires Unanimous(word, keys) && Enumerates(o, keys)
    ensures LastWord(word, o) == Some(true)
  {
    SomeoneSpeaks(word, o, keys);
    var i := LastSpeaker(word, o);
    assert o[i] in keys;
  }

  lemma {:induction false} YesInAllOrders(word: Words, keys: set<string>)
    requires forall o :: Enumerates(o, keys) ==> LastWord(word, o) == Some(true)
    ensures Unanimous(word, keys)
  {
    var o := OrderOf(keys);
    SomeoneSpeaks(word, o, keys);
    forall a | a in keys && word(a).Some? ensures word(a) == Some(true) {
      var ending := OrderEndingIn(keys, a);
      assert LastWord(word, ending) == word(a);
    }
  }

  /** `a` says yes to the first, `b` to the second, and each can be the last to speak on its own. */
  ghost predicate GoodPair(first: Words, second: Words, keys: set<string>, a: string, b: string)
  {
    && a in keys && b in keys && first(a) == Some(true) && second(b) == Some(true)
    && (a == b || second(a).None? || first(b).None?)
  }

  lemma {:induction false} PairGivesOrder(first: Words, second: Words, keys: set<string>, a: string, b: string)
    returns (o: seq<string>)
    requires GoodPair(first, second, keys, a, b)
    ensures Enumerates(o, keys) && LastWord(first, o) == Some(true) && LastWord(second, o) == Some(true)
  {
    if a == b {
      o := OrderEndingIn(keys, a);
    } else if second(a).None? {
      o := OrderEndingInTwo(keys, b, a);
      LastWordOf(second, o, |o| - 2);
    } else {
      o := OrderEndingInTwo(keys, a, b);
      LastWordOf(first, o, |o| - 2);
    }
  }

  lemma {:induction false} OrderGivesPair(first: Words, second: Words, keys: set<string>, o: seq<string>)
    returns (a: string, b: string)
    requires Enumerates(o, keys) && LastWord(first, o) == Some(true) && LastWord(second, o) == Some(true)
    ensures GoodPair(first, second, keys, a, b)
  {
    var i := LastSpeaker(first, o);
    var j := LastSpeaker(second, o);
    a, b := o[i], o[j];
  }

  // ----- the gates -----

  /** The last row of an application that reports on the gate, if any. */
  function AppWord(g: Gate, states: map<string, AppState>, app: string): Option<Row>
  {
    LastSay(Reports(g), Place(app, RowsOf(states, app)))
  }

  /** What an application says about a gate: whether its last reporting row is good. */
  function WordsOn(g: Gate, start: Time, states: map<string, AppState>): Words
  {
    app => var word := AppWord(g, states, app); if word.None? then None else Some(RowSatisfies(g, start, word.value))
  }

  function StatusFor(word: Option<bool>): GateStatus
  {
    if word.None? then GateUnknown else if word.value then GateTrue else GateFalse
  }

  /** The final word on a gate is the last word along the order of applications. */
  lemma {:induction false} FinalIsLast(g: Gate, start: Time, order: seq<string>, states: map<string, AppState>)
    ensures var say := FinalWord(g, order, states);
            LastWord(WordsOn(g, start, states), order) == if say.None? then None
                else Some(RowSatisfies(g, start, say.value))
  {
    if order != [] {
      var n := |order| - 1;
      FinalIsLast(g, start, order[..n], states);
      LastSayConcat(Reports(g), Flatten(order[..n], states), Place(order[n], RowsOf(states, order[n])));
    }
  }

  lemma {:induction false} StatusIsLastWord(g: Gate, spec: WindowSpec, hub: bool, order: seq<string>,
                                            states: map<string, AppState>)
    requires LastWriter(g)
    ensures FinalVerdict(spec, hub, order, states,
            g).status == StatusFor(LastWord(WordsOn(g, spec.startTime, states), order))
  {
    LastWriterGates(g, spec, hub, order, states);
    FinalIsLast(g, spec.startTime, order, states);
  }

  /** The status of a gate as a function of the order. */
  function StatusIn(g: Gate, spec: WindowSpec, hub: bool, states: map<string, AppState>): seq<string> -> GateStatus
  {
    order => FinalVerdict(spec, hub, order, states, g).status
  }

  ghost predicate SameStatusInAllOrders(status: seq<string> -> GateStatus, keys: set<string>)
  {
    forall o, o' :: Enumerates(o, keys) && Enumerates(o', keys) ==> status(o) == status(o')
  }

  lemma {:induction false} SameStatusMeans(status: seq<string> -> GateStatus, word: Words, keys: set<string>)
    requires forall o :: Enumerates(o, keys) ==> status(o) == StatusFor(LastWord(word, o))
    ensures SameStatusInAllOrders(status, keys) <==> Agreed(word, keys)
  {
    SameExactlyIfAgreed(word, keys);
    if SameStatusInAllOrders(status, keys) {
      forall o, o' | Enumerates(o, keys) && Enumerates(o', keys) ensures LastWord(word, o) == LastWord(word, o') {
        assert status(o) == status(o');
      }
    }
  }

  /** The map order cannot change a last-writer gate if and only if the applications that have a word on it agree. */
  lemma {:induction false} StatusIgnoresOrderExactly(g: Gate, spec: WindowSpec, hub: bool, states: map<string,
                                                     AppState>)
    requires LastWriter(g)
    ensures SameStatusInAllOrders(StatusIn(g, spec, hub, states), states.Keys)
       <==> Agreed(WordsOn(g, spec.startTime, states), states.Keys)
  {
    var word, status := WordsOn(g, spec.startTime, states), StatusIn(g, spec, hub, states);
    forall o | Enumerates(o, states.Keys) ensures status(o) == StatusFor(LastWord(word, o)) {
      StatusIsLastWord(g, spec, hub, o, states);
    }
    SameStatusMeans(status, word, states.Keys);
  }

  // ----- the verdict -----

  /** Everything Passed asks for besides the two last-writer gates. */
  ghost predicate RestHolds(spec: WindowSpec, hub: bool, states: map<string, AppState>, silent: seq<SilentCluster>)
  {
    silent == [] && spec.impactedApps != [] && NineGatesHold(spec, hub, states)
  }

  function OnVersion(spec: WindowSpec, states: map<string,
                     AppState>): Words { WordsOn(ClusterVersionStable, spec.startTime, states) }

  function OnPlatform(spec: WindowSpec, states: map<string, AppState>): Words
  {
    WordsOn(PlatformOperatorsDeployed, spec.startTime, states)
  }

  lemma {:induction false} PassedByWords(spec: WindowSpec, hub: bool, o: seq<string>, states: map<string, AppState>,
                                         silent: seq<SilentCluster>, prev: seq<GateResult>, now: Time)
    requires Enumerates(o, states.Keys)
    ensures Evaluate(spec, hub, o, states, silent, prev, now).passed
       <==> && RestHolds(spec, hub, states, silent)
            && LastWord(OnVersion(spec, states), o) == Some(true) && LastWord(OnPlatform(spec, states), o) == Some(true)
  {
    PassedMeaning(spec, hub, o, states, silent, prev, now);
    FinalIsLast(ClusterVersionStable, spec.startTime, o, states);
    FinalIsLast(PlatformOperatorsDeployed, spec.startTime, o, states);
  }

  ghost predicate PassedIn(spec: WindowSpec, hub: bool, order: seq<string>, states: map<string, AppState>,
                           silent: seq<SilentCluster>, prev: seq<GateResult>, now: Time)
  {
    Enumerates(order, states.Keys) && Evaluate(spec, hub, order, states, silent, prev, now).passed
  }

  /** Passed is computed in every order if and only if the rest holds and both last-writer gates are unanimous. */
  lemma {:induction false} PassesInEveryOrderExactly(spec: WindowSpec, hub: bool, states: map<string, AppState>,
                                                     silent: seq<SilentCluster>, prev: seq<GateResult>, now: Time)
    ensures (forall o :: Enumerates(o, states.Keys) ==> PassedIn(spec, hub, o, states, silent, prev, now))
       <==> && RestHolds(spec, hub, states, silent)
            && Unanimous(OnVersion(spec, states), states.Keys) && Unanimous(OnPlatform(spec, states), states.Keys)
  {
    var first, second, keys := OnVersion(spec, states), OnPlatform(spec, states), states.Keys;
    forall o | Enumerates(o, keys)
      ensures PassedIn(spec, hub, o, states, silent, prev, now)
         <==>
             RestHolds(spec, hub, states, silent) && LastWord(first, o) == Some(true)
             && LastWord(second, o) == Some(true)
    {
      PassedByWords(spec, hub, o, states, silent, prev, now);
    }
    if Unanimous(first, keys) && Unanimous(second, keys) {
      forall o | Enumerates(o, keys) ensures LastWord(first, o) == Some(true) && LastWord(second, o) == Some(true) {
        UnanimousSaysYes(first, keys, o);
        UnanimousSaysYes(second, keys, o);
      }
    }
    var some := OrderOf(keys);
    if forall o :: Enumerates(o, keys) ==> PassedIn(spec, hub, o, states, silent, prev, now) {
      YesInAllOrders(first, keys);
      YesInAllOrders(second, keys);
    }
  }

  /**
   * Passed is computed in some order if and only if the rest holds and there is a pair of applications, possibly the
   * same one, that say yes on one gate each and do not stand in each other's way. With the previous lemma this is
   * exactly when the order decides: some order passes, and not every one does.
   */
  lemma {:induction false} PassesInSomeOrderExactly(spec: WindowSpec, hub: bool, states: map<string, AppState>,
                                                    silent: seq<SilentCluster>, prev: seq<GateResult>, now: Time)
    ensures (exists o :: PassedIn(spec, hub, o, states, silent, prev, now))
       <==> && RestHolds(spec, hub, states, silent)
            && exists a, b :: GoodPair(OnVersion(spec, states), OnPlatform(spec, states), states.Keys, a, b)
  {
    var first, second, keys := OnVersion(spec, states), OnPlatform(spec, states), states.Keys;
    if o :| PassedIn(spec, hub, o, states, silent, prev, now) {
      PassedByWords(spec, hub, o, states, silent, prev, now);
      var a, b := OrderGivesPair(first, second, keys, o);
    }
    if RestHolds(spec, hub, states, silent) && exists a, b :: GoodPair(first, second, keys, a, b) {
      var a, b :| GoodPair(first, second, keys, a, b);
      var o := PairGivesOrder(first, second, keys, a, b);
      PassedByWords(spec, hub, o, states, silent, prev, now);
      assert PassedIn(spec, hub, o, states, silent, prev, now);
    }
  }

  // ----- it happens -----

  const SPLIT: map<string, AppState> :=
    map["a" := AppState(FleetSynced, [I.RowWith("east", I.UPGRADING)]),
        "b" := AppState(FleetSynced, [I.RowWith("west", I.STABLE)])]

  const SPLIT_WINDOW := WindowSpec("CHG1", ["a", "b"], 50, 500, 0, 300, 2, 180)

  lemma {:induction false} OneRowWord(g: Gate, states: map<string, AppState>, app: string, row: Row)
    requires RowsOf(states, app) == [row]
    ensures AppWord(g, states, app) == if Reported(g, row) then Some(row) else None
  {
    var placed := Place(app, [row]);
    assert placed == [Placed(app, row)] && placed[..0] == [];
    assert LastSay(Reports(g), placed) == if Reports(g)(row) then Some(row) else LastSay(Reports(g), placed[..0]);
  }

  lemma {:induction false} RowOfSplit(app: string, row: Row)
    requires RowIn(SPLIT, app, row)
    ensures row == I.RowWith("east", I.UPGRADING) || row == I.RowWith("west", I.STABLE)
  {
  }

  lemma {:induction false} RestHoldsOnSplit()
    ensures RestHolds(SPLIT_WINDOW, false, SPLIT, [])
  {
    var last := I.RowWith("west", I.STABLE);
    assert RowIn(SPLIT, "b", last);
    forall g: Gate | !LastWriter(g) ensures GateHolds(g, SPLIT_WINDOW, false, SPLIT) {
      forall a, r | RowIn(SPLIT, a, r) ensures GateTheorems.Good(g, SPLIT_WINDOW.startTime)(r) {
        RowOfSplit(a, r);
      }
      assert Reported(g, last);
    }
  }

  lemma {:induction false} EastReports(g: Gate)
    requires LastWriter(g)
    ensures Reported(g, I.RowWith("east", I.UPGRADING))
    ensures RowSatisfies(g, 50, I.RowWith("east", I.UPGRADING)) <==> g == PlatformOperatorsDeployed
  {
  }

  lemma {:induction false} WestReports(g: Gate)
    requires LastWriter(g)
    ensures Reported(g, I.RowWith("west", I.STABLE)) && RowSatisfies(g, 50, I.RowWith("west", I.STABLE))
  {
  }

  lemma {:induction false} WordOfOneRow(g: Gate, start: Time, states: map<string, AppState>, app: string, row: Row)
    requires RowsOf(states, app) == [row] && Reported(g, row)
    ensures WordsOn(g, start, states)(app) == Some(RowSatisfies(g, start, row))
  {
    OneRowWord(g, states, app, row);
  }

  lemma {:induction false} WordsOfSplit(g: Gate)
    requires LastWriter(g)
    ensures WordsOn(g, 50, SPLIT)("b") == Some(true)
    ensures WordsOn(g, 50, SPLIT)("a") == Some(g == PlatformOperatorsDeployed)
  {
    EastReports(g);
    WestReports(g);
    WordOfOneRow(g, 50, SPLIT, "a", I.RowWith("east", I.UPGRADING));
    WordOfOneRow(g, 50, SPLIT, "b", I.RowWith("west", I.STABLE));
  }

  lemma {:induction false} SplitPassesIf(first: string, last: string)
    requires Enumerates([first, last], SPLIT.Keys) && last in {"a", "b"}
    ensures Evaluate(SPLIT_WINDOW, false, [first, last], SPLIT, [], [], 100).passed <==> last == "b"
  {
    RestHoldsOnSplit();
    PassedByWords(SPLIT_WINDOW, false, [first, last], SPLIT, [], [], 100);
    WordsOfSplit(ClusterVersionStable);
    WordsOfSplit(PlatformOperatorsDeployed);
  }

  lemma {:induction false} SplitOrders()
    ensures Enumerates(["a", "b"], SPLIT.Keys) && Enumerates(["b", "a"], SPLIT.Keys)
  {
    var o, o' := ["a", "b"], ["b", "a"];
    assert o[0] == "a" && o[1] == "b" && o'[0] == "b" && o'[1] == "a";
  }

  /** The same rows pass in one order and fail in the other. */
  lemma {:induction false} OrderFlipsVerdict()
    ensures PassedIn(SPLIT_WINDOW, false, ["a", "b"], SPLIT, [], [], 100)
    ensures Enumerates(["b", "a"], SPLIT.Keys) && !PassedIn(SPLIT_WINDOW, false, ["b", "a"], SPLIT, [], [], 100)
  {
    SplitOrders();
    SplitPassesIf("a", "b");
    SplitPassesIf("b", "a");
  }
}
