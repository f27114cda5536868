/** The metric gauges of one operator process, keyed by application, cluster and row state. */
module Gauges {
  import opened Base
  import opened Model

  datatype Label = Label(app: string, cluster: string, state: RowState)

  datatype Pair = Pair(app: string, cluster: string)

  /** Gauge values; `lag` and `age` are in whole seconds. */
  datatype View = View(state: map<Label, int>, lag: map<Pair, int>, age: map<Pair, int>)

  const EMPTY := View(map[], map[], map[])

  function PossibleStates(): seq<RowState> { [InSync, Propagating, Lagging, Diverged, Stale, Missing] }

  /** What the six-state loop does to the state gauge. */
  function SetStates(g: map<Label, int>, app: string, cluster: string, current: RowState,
                     states: seq<RowState>): map<Label, int>
  {
    if states == [] then g
    else
      var st := states[|states| - 1];
      SetStates(g, app, cluster, current, states[..|states| - 1])[Label(app, cluster, st) := if st == current then 1
          else 0]
  }

  function DropStates(g: map<Label, int>, app: string, cluster: string, states: seq<RowState>): map<Label, int>
  {
    if states == [] then g
    else DropStates(g, app, cluster, states[..|states| - 1]) - {Label(app, cluster, states[|states| - 1])}
  }

  lemma {:induction false} SetStatesAt(g: map<Label, int>, app: string, cluster: string, current: RowState,
                                       states: seq<RowState>, l: Label)
    ensures var r := SetStates(g, app, cluster, current, states);
            if l.app == app && l.cluster == cluster && l.state in states
            then l in r && r[l] == (if l.state == current then 1 else 0)
            else (l in r <==> l in g) && (l in g ==> r[l] == g[l])
  {
    if states != [] {
      SetStatesAt(g, app, cluster, current, states[..|states| - 1], l);
      assert states == states[..|states| - 1] + [states[|states| - 1]];
    }
  }

  lemma {:induction false} DropStatesAt(g: map<Label, int>, app: string, cluster: string, states: seq<RowState>,
                                        l: Label)
    ensures var r := DropStates(g, app, cluster, states);
            && (l in r <==> l in g && !(l.app == app && l.cluster == cluster && l.state in states))
            && (l in r ==> r[l] == g[l])
  {
    if states != [] {
      DropStatesAt(g, app, cluster, states[..|states| - 1], l);
      assert states == states[..|states| - 1] + [states[|states| - 1]];
    }
  }

  function Record(g: View, app: string, cluster: string, current: RowState, lag: int, age: int): View
  {
    View(SetStates(g.state, app, cluster, current, PossibleStates()),
         g.lag[Pair(app, cluster) := lag], g.age[Pair(app, cluster) := age])
  }

  function Delete(g: View, app: string, cluster: string): View
  {
    View(DropStates(g.state, app, cluster, PossibleStates()), g.lag - {Pair(app, cluster)},
        g.age - {Pair(app, cluster)})
  }

  /** Some gauge of the pair exists. */
  predicate Shown(g: View, app: string, cluster: string)
  {
    Pair(app, cluster) in g.lag || Pair(app, cluster) in g.age || exists st ::
        st in PossibleStates()
        && Label(app, cluster, st) in g.state
  }

  /** The pair has all its gauges: one-hot over the six states at `current`, with the given lag and age. */
  predicate Shows(g: View, app: string, cluster: string, current: RowState, lag: int, age: int)
  {
    && Pair(app, cluster) in g.lag && g.lag[Pair(app, cluster)] == lag
    && Pair(app, cluster) in g.age && g.age[Pair(app, cluster)] == age
    && forall st :: st in PossibleStates() ==>
         Label(app, cluster, st) in g.state && g.state[Label(app, cluster, st)] == if st == current then 1 else 0
  }

  /** The gauges of this pair are the same in both views. */
  predicate SameFor(g: View, h: View, app: string, cluster: string)
  {
    && (Pair(app, cluster) in g.lag <==> Pair(app, cluster) in h.lag)
    && (Pair(app, cluster) in g.lag ==> g.lag[Pair(app, cluster)] == h.lag[Pair(app, cluster)])
    && (Pair(app, cluster) in g.age <==> Pair(app, cluster) in h.age)
    && (Pair(app, cluster) in g.age ==> g.age[Pair(app, cluster)] == h.age[Pair(app, cluster)])
    && forall st :: st in PossibleStates() ==>
         (Label(app, cluster, st) in g.state <==> Label(app, cluster, st) in h.state)
         && (Label(app, cluster, st) in g.state
            ==> g.state[Label(app, cluster, st)] == h.state[Label(app, cluster, st)])
  }

  /** Recording shows exactly the recorded state and touches no other pair. */
  lemma {:induction false} RecordShows(g: View, app: string, cluster: string, current: RowState, lag: int, age: int,
                                       a: string, c: string)
    ensures a == app && c == cluster ==> Shows(Record(g, app, cluster, current, lag, age), a, c, current, lag, age)
    ensures !(a == app && c == cluster) ==> SameFor(Record(g, app, cluster, current, lag, age), g, a, c)
  {
    var r := SetStates(g.state, app, cluster, current, PossibleStates());
    forall st | st in PossibleStates()
      ensures if a == app && c == cluster
              then Label(a, c, st) in r && r[Label(a, c, st)] == (if st == current then 1 else 0)
              else (Label(a, c, st) in r <==> Label(a, c, st) in g.state)
                   && (Label(a, c, st) in r ==> r[Label(a, c, st)] == g.state[Label(a, c, st)])
    {
      SetStatesAt(g.state, app, cluster, current, PossibleStates(), Label(a, c, st));
    }
  }

  /** Deleting leaves nothing of the pair and touches no other pair. */
  lemma {:induction false} DeleteHides(g: View, app: string, cluster: string, a: string, c: string)
    ensures a == app && c == cluster ==> !Shown(Delete(g, app, cluster), a, c)
    ensures !(a == app && c == cluster) ==> SameFor(Delete(g, app, cluster), g, a, c)
  {
    var r := DropStates(g.state, app, cluster, PossibleStates());
    forall st | st in PossibleStates()
      ensures if a == app && c == cluster
              then Label(a, c, st) !in r
              else (Label(a, c, st) in r <==> Label(a, c, st) in g.state)
                   && (Label(a, c, st) in r ==> r[Label(a, c, st)] == g.state[Label(a, c, st)])
    {
      DropStatesAt(g.state, app, cluster, PossibleStates(), Label(a, c, st));
    }
  }

  /** The process's gauge vectors. */
  class Metrics {
    var clusterState: map<Label, int>
    var lagSeconds: map<Pair, int>
    var reportAge: map<Pair, int>

    constructor ()
      ensures Now() == EMPTY
    {
      clusterState, lagSeconds, reportAge := map[], map[], map[];
    }

    ghost function Now(): View
      reads this
    {
      View(clusterState, lagSeconds, reportAge)
    }

    method RecordClusterMetrics(app: string, cluster: string, currentState: RowState, lag: int, age: int)
      modifies this
      ensures Now() == Record(old(Now()), app, cluster, currentState, lag, age)
    {
      var possibleStates := PossibleStates();
      for i := 0 to |possibleStates|
        invariant clusterState == SetStates(old(clusterState), app, cluster, currentState, possibleStates[..i])
        invariant lagSeconds == old(lagSeconds) && reportAge == old(reportAge)
      {
        assert possibleStates[..i + 1][..i] == possibleStates[..i];
        var v := 0;
        if possibleStates[i] == currentState {
          v := 1;
        }
        clusterState := clusterState[Label(app, cluster, possibleStates[i]) := v];
      }
      assert possibleStates[..|possibleStates|] == possibleStates;
      lagSeconds := lagSeconds[Pair(app, cluster) := lag];
      reportAge := reportAge[Pair(app, cluster) := age];
    }

    method DeleteClusterMetrics(app: string, cluster: string)
      modifies this
      ensures Now() == Delete(old(Now()), app, cluster)
    {
      var possibleStates := PossibleStates();
      for i := 0 to |possibleStates|
        invariant clusterState == DropStates(old(clusterState), app, cluster, possibleStates[..i])
        invariant lagSeconds == old(lagSeconds) && reportAge == old(reportAge)
      {
        assert possibleStates[..i + 1][..i] == possibleStates[..i];
        clusterState := clusterState - {Label(app, cluster, possibleStates[i])};
      }
      assert possibleStates[..|possibleStates|] == possibleStates;
      lagSeconds := lagSeconds - {Pair(app, cluster)};
      reportAge := reportAge - {Pair(app, cluster)};
    }
  }
}
