/**
 * The Kafka consumer: fetch, filter, create with retries, commit; at-least-once delivery, idempotent creation.
 *
 * A run is a list of API outcomes, crashes included. Creation may be applied although the client saw an error,
 * and a commit may get lost. `CrashReplay` says the windows created are nevertheless those of a crash-free pass
 * over a prefix of the log in which the first delivery of each number wins.
 */
module Ingest {
  import opened Base
  import opened Model
  import opened Text

  datatype Payload = Payload(
    chgNumber: string,
    targetClusters: seq<string>,
    impactedApps: seq<string>,
    startTime: Time,
    endTime: Time,
    staleReportThresholdSeconds: Int32)

  datatype Message = Malformed | Event(payload: Payload)

  function WindowOf(p: Payload): WindowSpec
  {
    WindowSpec(p.chgNumber, p.impactedApps, p.startTime, p.endTime, 0, p.staleReportThresholdSeconds, 0, 0)
  }

  /** The window is the one the event asks for; what the event does not say is left to its default. */
  predicate AskedFor(w: WindowSpec, p: Payload)
  {
    && w.chgNumber == p.chgNumber && w.impactedApps == p.impactedApps
    && w.startTime == p.startTime && w.endTime == p.endTime
    && w.staleReportThresholdSeconds == p.staleReportThresholdSeconds
    && w.stabilizationPeriodSeconds == 0 && w.maxAttempts == 0 && w.waitBetweenSeconds == 0
  }

  function Name(p: Payload): string { ToLower(p.chgNumber) }

  predicate Targeted(cluster: string, targets: seq<string>)
  {
    cluster == "" || EqualFold(cluster, "hub") || targets == []
    || exists t :: t in targets && (t == "*" || EqualFold(t, cluster))
  }

  method IsClusterTargeted(cluster: string, targets: seq<string>) returns (r: bool)
    ensures r == Targeted(cluster, targets)
  {
    if cluster == "" || EqualFold(cluster, "hub") || |targets| == 0 {
      return true;
    }
    for i := 0 to |targets|
      invariant forall k :: 0 <= k < i ==> targets[k] != "*" && !EqualFold(targets[k], cluster)
    {
      if targets[i] == "*" || EqualFold(targets[i], cluster) {
        assert targets[i] in targets;
        return true;
      }
    }
    return false;
  }

  predicate Relevant(cluster: string, m: Message)
  {
    m.Event? && m.payload.chgNumber != "" && Targeted(cluster, m.payload.targetClusters)
  }

  // ----- the crash-free reading of the log -----

  type Store = map<string, WindowSpec>

  /** The first delivery of a number wins. */
  function Deliver(cluster: string, store: Store, m: Message): Store
  {
    if Relevant(cluster, m) && Name(m.payload) !in store then store[Name(m.payload) := WindowOf(m.payload)] else store
  }

  function Fold(cluster: string, log: seq<Message>): Store
  {
    if log == [] then map[] else Deliver(cluster, Fold(cluster, log[..|log| - 1]), log[|log| - 1])
  }

  ghost predicate IsFirst(cluster: string, log: seq<Message>, k: int, name: string)
  {
    && 0 <= k < |log| && Relevant(cluster, log[k]) && ToLower(log[k].payload.chgNumber) == name
    && forall i :: 0 <= i < k && Relevant(cluster, log[i]) ==> ToLower(log[i].payload.chgNumber) != name
  }

  /** Looking at one more message does not change which of the earlier ones came first. */
  lemma {:induction false} FirstOfFront(cluster: string, log: seq<Message>, name: string)
    requires log != []
    ensures forall k ::
        k < |log| - 1
        ==> (IsFirst(cluster, log, k, name) <==> IsFirst(cluster, log[..|log| - 1], k, name))
  {
    forall k | 0 <= k < |log| - 1
      ensures IsFirst(cluster, log, k, name) <==> IsFirst(cluster, log[..|log| - 1], k, name)
    {
      assert forall i :: 0 <= i <= k ==> log[..|log| - 1][i] == log[i];
    }
  }

  /**
   * A window is stored under a name exactly when the log has a relevant event of that name, and it is the first one's.
   */
  lemma {:induction false} FoldMeaning(cluster: string, log: seq<Message>, name: string)
    ensures name in Fold(cluster, log) <==> exists k :: IsFirst(cluster, log, k, name)
    ensures forall k :: IsFirst(cluster, log, k, name) ==>
              name in Fold(cluster, log) && AskedFor(Fold(cluster, log)[name], log[k].payload)
  {
    if log != [] {
      var n := |log| - 1;
      var front := log[..n];
      FoldMeaning(cluster, front, name);
      FirstOfFront(cluster, log, name);
      if name in Fold(cluster, front) {
        var k :| IsFirst(cluster, front, k, name);
        assert IsFirst(cluster, log, k, name);
      } else if Relevant(cluster, log[n]) && Name(log[n].payload) == name {
        RelevantIsStored(cluster, front, name);
        assert forall i :: 0 <= i < n ==> front[i] == log[i];
        assert IsFirst(cluster, log, n, name);
      }
    }
  }

  /** Every relevant event of the log has its window stored under its lower-cased number. */
  lemma {:induction false} RelevantIsStored(cluster: string, log: seq<Message>, name: string)
    ensures name !in Fold(cluster, log) ==> forall i ::
        0 <= i < |log| && Relevant(cluster, log[i])
        ==> Name(log[i].payload) != name
  {
    if log != [] {
      RelevantIsStored(cluster, log[..|log| - 1], name);
    }
  }

  /** Delivering an event of the handled prefix again changes nothing. */
  lemma {:induction false} RedeliveryIsIdle(cluster: string, log: seq<Message>, i: nat)
    requires i < |log|
    ensures Deliver(cluster, Fold(cluster, log), log[i]) == Fold(cluster, log)
  {
    if Relevant(cluster, log[i]) {
      RelevantIsStored(cluster, log, Name(log[i].payload));
    }
  }

  // ----- the consumer, one API call at a time -----

  datatype Pc = Fetching | Creating | Committing

  /**
   * `store` lives in the API server, `committed` in the broker, `position` and `pc` in the process.
   * `handled` is a history variable: how much of the log has ever been dealt with.
   */
  datatype State = State(store: Store, committed: nat, position: nat, pc: Pc, handled: nat)

  const START := State(map[], 0, 0, Fetching, 0)

  datatype Outcome =
    | FetchFails
    | FetchReturns
    | CreateLost                      // the request never took effect
    | CreateReaches(answered: bool)   // it took effect, or found the window there; the answer may get lost
    | CommitFails
    | CommitWorks
    | Crash                           // or shutdown: the next process starts at the committed offset

  function Max(a: nat, b: nat): nat { if a < b then b else a }

  function Step(cluster: string, log: seq<Message>, s: State, o: Outcome): State
  {
    match o
    case Crash => s.(position := s.committed, pc := Fetching)
    case FetchReturns =>
      if s.pc != Fetching || s.position >= |log| then s
      else if Relevant(cluster, log[s.position]) then s.(pc := Creating)
      else s.(pc := Committing, handled := Max(s.handled, s.position + 1))
    case CreateReaches(answered) =>
      if s.pc != Creating || s.position >= |log| then s
      else s.(store := Deliver(cluster, s.store, log[s.position]),
              pc := if answered then Committing else Creating,
              handled := Max(s.handled, s.position + 1))
    case CommitWorks => if s.pc != Committing then s
        else s.(committed := s.position + 1, position := s.position + 1, pc := Fetching)
    case CommitFails => if s.pc != Committing then s else s.(position := s.position + 1, pc := Fetching)
    case FetchFails => s
    case CreateLost => s
  }

  function Run(cluster: string, log: seq<Message>, s: State, os: seq<Outcome>): State
  {
    if os == [] then s else Step(cluster, log, Run(cluster, log, s, os[..|os| - 1]), os[|os| - 1])
  }

  ghost predicate Inv(cluster: string, log: seq<Message>, s: State)
  {
    && s.committed <= s.position <= s.handled <= |log|
    && (s.pc == Creating ==> s.position < |log| && Relevant(cluster, log[s.position]))
    && (s.pc == Committing ==> s.position < s.handled)
    && s.store == Fold(cluster, log[..s.handled])
  }

  lemma {:induction false} StepKeepsInv(cluster: string, log: seq<Message>, s: State, o: Outcome)
    requires Inv(cluster, log, s)
    ensures Inv(cluster, log, Step(cluster, log, s, o))
    ensures s.handled <= Step(cluster, log, s, o).handled
  {
    var p := s.position;
    if p < |log| {
      if p == s.handled {
        assert log[..p + 1][..p] == log[..p];
      } else {
        assert log[..s.handled][p] == log[p];
        RedeliveryIsIdle(cluster, log[..s.handled], p);
      }
    }
  }

  lemma {:induction false} RunKeepsInv(cluster: string, log: seq<Message>, s: State, os: seq<Outcome>)
    requires Inv(cluster, log, s)
    ensures Inv(cluster, log, Run(cluster, log, s, os))
  {
    if os != [] {
      RunKeepsInv(cluster, log, s, os[..|os| - 1]);
      StepKeepsInv(cluster, log, Run(cluster, log, s, os[..|os| - 1]), os[|os| - 1]);
    }
  }

  /**
   * In every run with lost fetches, creates, answers and commits and with any number of crashes: the store is the
   * crash-free fold over the handled prefix, which covers the committed offset, and every relevant event below the
   * committed offset has a window under its lower-cased number. Its number, applications, times and threshold are
   * those its first delivery asked for.
   */
  lemma {:induction false} CrashReplay(cluster: string, log: seq<Message>, os: seq<Outcome>, s: State)
    requires s == Run(cluster, log, START, os)
    ensures s.committed <= s.handled <= |log|
    ensures s.store == Fold(cluster, log[..s.handled])
    ensures forall i :: 0 <= i < s.committed && Relevant(cluster, log[i]) ==>
              ToLower(log[i].payload.chgNumber) in s.store
    ensures forall k, name :: IsFirst(cluster, log, k, name) && k < s.handled ==>
              name in s.store && AskedFor(s.store[name], log[k].payload)
  {
    assert log[..0] == [];
    RunKeepsInv(cluster, log, START, os);
    var prefix := log[..s.handled];
    forall i | 0 <= i < s.committed && Relevant(cluster, log[i])
      ensures ToLower(log[i].payload.chgNumber) in s.store
    {
      assert prefix[i] == log[i];
      RelevantIsStored(cluster, prefix, Name(log[i].payload));
    }
    forall k, name | IsFirst(cluster, log, k, name) && k < s.handled
      ensures name in s.store && AskedFor(s.store[name], log[k].payload)
    {
      assert IsFirst(cluster, prefix, k, name);
      FoldMeaning(cluster, prefix, name);
    }
  }

  /** In every run, there is no window but those that some handled event was the first to ask for. */
  lemma {:induction false} StoredWereAskedFor(cluster: string, log: seq<Message>, os: seq<Outcome>, s: State,
                                              name: string)
    returns (k: nat)
    requires s == Run(cluster, log, START, os) && name in s.store
    ensures k < s.handled && IsFirst(cluster, log, k, name) && AskedFor(s.store[name], log[k].payload)
  {
    CrashReplay(cluster, log, os, s);
    FoldMeaning(cluster, log[..s.handled], name);
    k :| IsFirst(cluster, log[..s.handled], k, name);
    assert IsFirst(cluster, log, k, name);
  }

  /** The event asks this cluster for a window of this name. */
  predicate Asks(cluster: string, m: Message, name: string)
  {
    && m.Event? && m.payload.chgNumber != "" && ToLower(m.payload.chgNumber) == name
    && (ToLower(cluster) in {"", "hub"} || m.payload.targetClusters == [] || "*" in m.payload.targetClusters
        || exists t :: t in m.payload.targetClusters && ToLower(t) == ToLower(cluster))
  }

  lemma {:induction false} RelevantAsks(cluster: string, m: Message, name: string)
    ensures Asks(cluster, m, name) <==> Relevant(cluster, m) && ToLower(m.payload.chgNumber) == name
  {
    assert ToLower("hub") == "hub";
  }

  /** In every run, a window is there exactly if some handled event asked for it; its name has no capital letter. */
  lemma {:induction false} StoredExactlyIfAsked(cluster: string, log: seq<Message>, os: seq<Outcome>, s: State,
                                                name: string)
    requires s == Run(cluster, log, START, os)
    ensures s.handled <= |log|
    ensures name in s.store <==> exists k :: 0 <= k < s.handled && Asks(cluster, log[k], name)
    ensures name in s.store ==> forall i :: 0 <= i < |name| ==> !IsCapital(name[i])
  {
    CrashReplay(cluster, log, os, s);
    var prefix := log[..s.handled];
    if name in s.store {
      var k := StoredWereAskedFor(cluster, log, os, s, name);
      RelevantAsks(cluster, log[k], name);
    } else {
      RelevantIsStored(cluster, prefix, name);
      forall k | 0 <= k < s.handled ensures !Asks(cluster, log[k], name) {
        assert prefix[k] == log[k];
        RelevantAsks(cluster, log[k], name);
      }
    }
  }

  /** If relevant events start before they end, so do the windows stored, in every run. */
  lemma {:induction false} WindowsAreOrdered(cluster: string, log: seq<Message>, os: seq<Outcome>, s: State)
    requires s == Run(cluster, log, START, os)
    requires forall i :: 0 <= i < |log| && Relevant(cluster, log[i])
                         ==> log[i].payload.startTime <= log[i].payload.endTime
    ensures forall name :: name in s.store ==> s.store[name].startTime <= s.store[name].endTime
  {
    forall name | name in s.store ensures s.store[name].startTime <= s.store[name].endTime {
      var k := StoredWereAskedFor(cluster, log, os, s, name);
    }
  }

  /** A window, once stored, is never replaced or removed by anything the consumer does later. */
  lemma {:induction false} StoreOnlyGrows(cluster: string, log: seq<Message>, s: State, os: seq<Outcome>, name: string)
    requires name in s.store
    ensures name in Run(cluster, log, s, os).store && Run(cluster, log, s, os).store[name] == s.store[name]
  {
    if os != [] {
      StoreOnlyGrows(cluster, log, s, os[..|os| - 1], name);
    }
  }

  // ----- the loop itself -----

  class KafkaBridge {
    const cluster: string
    const log: seq<Message>
    var store: Store
    var committed: nat
    var position: nat
    ghost var handled: nat

    constructor (cluster: string, log: seq<Message>)
      ensures this.cluster == cluster && this.log == log && Now(Fetching) == START
    {
      this.cluster, this.log := cluster, log;
      store, committed, position, handled := map[], 0, 0, 0;
    }

    ghost function Now(pc: Pc): State
      reads this
    {
      State(store, committed, position, pc, handled)
    }

    /** The create loop: ask until the answer is yes or already-exists. */
    method CreateUntilThere(script: seq<Outcome>, from: nat, ghost s0: State) returns (i: nat, created: bool)
      requires from <= |script| && position < |log| && Relevant(cluster, log[position])
      requires Run(cluster, log, s0, script[..from]) == Now(Creating)
      requires forall k :: 0 <= k < |script| ==> !script[k].Crash?
      modifies this`store, this`handled
      ensures from <= i <= |script| && (!created ==> i == |script|)
      ensures Run(cluster, log, s0, script[..i]) == Now(if created then Committing else Creating)
    {
      i, created := from, false;
      while !created && i < |script|
        invariant from <= i <= |script|
        invariant Run(cluster, log, s0, script[..i]) == Now(if created then Committing else Creating)
        decreases |script| - i
      {
        assert script[..i + 1][..i] == script[..i];
        match script[i] {
          case CreateReaches(answered) =>
            var p := log[position].payload;
            if ToLower(p.chgNumber) !in store {
              store := store[ToLower(p.chgNumber) := WindowSpec(
                p.chgNumber, p.impactedApps, p.startTime, p.endTime, 0, p.staleReportThresholdSeconds, 0, 0)];
            }
            handled := Max(handled, position + 1);
            created := answered;
          case _ =>
        }
        i := i + 1;
      }
    }

    /** After a message has been dealt with, its offset is committed; if that fails, the consumer just goes on. */
    method CommitMessage(script: seq<Outcome>, from: nat, ghost s0: State) returns (i: nat, moved: bool)
      requires from <= |script|
      requires Run(cluster, log, s0, script[..from]) == Now(Committing)
      requires forall k :: 0 <= k < |script| ==> !script[k].Crash?
      modifies this`committed, this`position
      ensures from <= i <= |script| && (!moved ==> i == |script|)
      ensures Run(cluster, log, s0, script[..i]) == Now(if moved then Fetching else Committing)
    {
      i, moved := from, false;
      while !moved && i < |script|
        invariant from <= i <= |script|
        invariant Run(cluster, log, s0, script[..i]) == Now(if moved then Fetching else Committing)
        decreases |script| - i
      {
        assert script[..i + 1][..i] == script[..i];
        match script[i] {
          case CommitWorks =>
            committed, position, moved := position + 1, position + 1, true;
          case CommitFails =>
            position, moved := position + 1, true;
          case _ =>
        }
        i := i + 1;
      }
    }

    /**
     * One life of the consumer, after a crash of the one before it wherever that was: it starts at the committed offset
     * and ends when the script of API outcomes ends. The store stays the crash-free fold over the handled prefix.
     */
    method Start(script: seq<Outcome>) returns (ghost pc: Pc)
      requires committed <= handled <= |log| && store == Fold(cluster, log[..handled])
      requires forall k :: 0 <= k < |script| ==> !script[k].Crash?
      modifies this
      ensures forall dead: Pc :: Now(pc) == Run(cluster, log, Step(cluster, log, old(Now(dead)), Crash), script)
      ensures old(handled) <= handled && committed <= handled <= |log| && store == Fold(cluster, log[..handled])
    {
      position := committed;
      ghost var s0 := Now(Fetching);
      pc := Fetching;
      var i := 0;
      while i < |script|
        invariant 0 <= i <= |script|
        invariant i < |script| ==> pc == Fetching
        invariant Run(cluster, log, s0, script[..i]) == Now(pc)
      {
        assert script[..i + 1][..i] == script[..i];
        var fetched := script[i].FetchReturns? && position < |log|;
        i := i + 1;
        if fetched {
          var m := log[position];
          var done := m.Malformed? || m.payload.chgNumber == "";
          if !done {
            var targeted := IsClusterTargeted(cluster, m.payload.targetClusters);
            done := !targeted;
          }
          if done {
            handled := Max(handled, position + 1);
          } else {
            i, done := CreateUntilThere(script, i, s0);
          }
          pc := if done then Committing else Creating;
          if done {
            i, done := CommitMessage(script, i, s0);
            pc := if done then Fetching else Committing;
          }
        }
      }
      assert script[..|script|] == script;
      RunKeepsInv(cluster, log, s0, script);
      HandledGrows(cluster, log, s0, script);
    }
  }

  lemma {:induction false} HandledGrows(cluster: string, log: seq<Message>, s: State, os: seq<Outcome>)
    ensures s.handled <= Run(cluster, log, s, os).handled
  {
    if os != [] {
      HandledGrows(cluster, log, s, os[..|os| - 1]);
    }
  }
}
