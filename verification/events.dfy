/** The warning-event summary: group by reason and object, keep the loudest of each group, then the loudest groups. */
module Events {
  import opened Base
  import opened Model

  const MAX_WARNING_EVENTS := 20

  datatype Event = Event(warning: bool, reason: string, message: string, count: Int32, lastTimestamp: Time,
      kind: string, name: string)

  datatype Key = Key(reason: string, involved: string)

  function KeyOf(ev: Event): Key { Key(ev.reason, ev.kind + "/" + ev.name) }

  function Summarize(ev: Event): EventSummary
  {
    EventSummary(ev.reason, ev.message, ev.count, ev.lastTimestamp, KeyOf(ev).involved)
  }

  function SummaryKey(s: EventSummary): Key { Key(s.reason, s.involvedObject) }

  /** The entry tells of this event: its reason, text, count and time, and the object it involves. */
  predicate TellsOf(s: EventSummary, ev: Event)
  {
    && s.reason == ev.reason && s.message == ev.message && s.count == ev.count
    && s.lastObservedAt == ev.lastTimestamp && s.involvedObject == ev.kind + "/" + ev.name
  }

  // ----- grouping -----

  function Absorb(grouped: map<Key, EventSummary>, ev: Event): map<Key, EventSummary>
  {
    if !ev.warning || (KeyOf(ev) in grouped && ev.count <= grouped[KeyOf(ev)].count) then grouped
    else grouped[KeyOf(ev) := Summarize(ev)]
  }

  function Grouped(events: seq<Event>): map<Key, EventSummary>
  {
    if events == [] then map[] else Absorb(Grouped(events[..|events| - 1]), events[|events| - 1])
  }

  /** Event `i` is a warning with this key. */
  predicate Warns(events: seq<Event>, i: int, k: Key)
  {
    0 <= i < |events| && events[i].warning && k == Key(events[i].reason, events[i].kind + "/" + events[i].name)
  }

  ghost predicate Warned(events: seq<Event>, k: Key)
  {
    exists i :: Warns(events, i, k)
  }

  /** The first of the loudest warnings with this key. */
  ghost predicate IsLoudest(events: seq<Event>, j: int, k: Key)
  {
    && Warns(events, j, k)
    && (forall i :: Warns(events, i, k) ==> events[i].count <= events[j].count)
    && (forall i :: i < j && Warns(events, i, k) ==> events[i].count < events[j].count)
  }

  lemma {:induction false} WarnsInFront(events: seq<Event>, k: Key)
    requires events != []
    ensures forall i :: i < |events| - 1 ==> (Warns(events, i, k) <==> Warns(events[..|events| - 1], i, k))
  {
  }

  /** The loudest warning of a key stays the loudest until a louder one arrives, which then takes its place. */
  lemma {:induction false} LoudestSoFar(events: seq<Event>, j: int, k: Key)
    requires events != [] && IsLoudest(events[..|events| - 1], j, k)
    ensures var n := |events| - 1;
            IsLoudest(events, if Warns(events, n, k) && events[n].count > events[j].count then n else j, k)
  {
    WarnsInFront(events, k);
    assert forall i :: 0 <= i < |events| - 1 ==> events[..|events| - 1][i] == events[i];
  }

  /** Each group holds the summary of its first loudest warning; there is a group for every key warned about. */
  lemma {:induction false} GroupMeaning(events: seq<Event>, k: Key)
    ensures k in Grouped(events) <==> Warned(events, k)
    ensures k in Grouped(events) ==> exists j :: IsLoudest(events, j, k) && TellsOf(Grouped(events)[k], events[j])
  {
    if events != [] {
      var n := |events| - 1;
      var front := events[..n];
      GroupMeaning(front, k);
      WarnsInFront(events, k);
      if k in Grouped(front) {
        var j :| IsLoudest(front, j, k) && TellsOf(Grouped(front)[k], front[j]);
        LoudestSoFar(events, j, k);
        assert Warns(events, j, k);
      } else if Warns(events, n, k) {
        assert IsLoudest(events, n, k);
      }
    }
  }

  // ----- what the summary must be -----

  predicate Descending(s: seq<EventSummary>)
  {
    forall i, j :: 0 <= i < j < |s| ==> s[i].count >= s[j].count
  }

  ghost predicate DistinctKeys(s: seq<EventSummary>)
  {
    forall i, j :: 0 <= i < j < |s| ==> SummaryKey(s[i]) != SummaryKey(s[j])
  }

  ghost predicate EntryRight(events: seq<Event>, s: EventSummary)
  {
    exists j :: IsLoudest(events, j, SummaryKey(s)) && TellsOf(s, events[j])
  }

  /** Every entry summarizes the loudest warning of its key. */
  ghost predicate EntriesRight(events: seq<Event>, s: seq<EventSummary>)
  {
    forall i :: 0 <= i < |s| ==> EntryRight(events, s[i])
  }

  predicate NotListed(s: seq<EventSummary>, k: Key)
  {
    forall i :: 0 <= i < |s| ==> SummaryKey(s[i]) != k
  }

  /** A key that is missing was dropped for lack of room, and is no louder than any entry kept. */
  ghost predicate DropsOnlyQuieter(events: seq<Event>, s: seq<EventSummary>)
  {
    forall j, k :: IsLoudest(events, j, k) && NotListed(s, k) ==>
      && |s| == 20
      && forall i :: 0 <= i < |s| ==> events[j].count <= s[i].count
  }

  ghost predicate IsSummary(events: seq<Event>, s: seq<EventSummary>)
  {
    && |s| <= 20
    && Descending(s)
    && DistinctKeys(s)
    && EntriesRight(events, s)
    && DropsOnlyQuieter(events, s)
  }

  // ----- ranging, sorting, truncating -----

  function ValuesInOrder(order: seq<Key>, grouped: map<Key, EventSummary>): (r: seq<EventSummary>)
    requires forall i :: 0 <= i < |order| ==> order[i] in grouped
    ensures |r| == |order|
    ensures forall i :: 0 <= i < |order| ==> r[i] == grouped[order[i]]
  {
    seq(|order|, i requires 0 <= i < |order| => grouped[order[i]])
  }

  /** `perm` says where each element of `sorted` comes from: a sort that need not be stable. */
  ghost predicate Rearranges(perm: seq<int>, from: seq<EventSummary>, sorted: seq<EventSummary>)
  {
    && |perm| == |sorted| == |from|
    && (forall i :: 0 <= i < |perm| ==> 0 <= perm[i] < |from| && sorted[i] == from[perm[i]])
    && (forall i, j :: 0 <= i < j < |perm| ==> perm[i] != perm[j])
    && (forall k :: 0 <= k < |from| ==> k in perm)
  }

  function Truncate(s: seq<EventSummary>): seq<EventSummary>
  {
    if |s| > MAX_WARNING_EVENTS then s[..MAX_WARNING_EVENTS] else s
  }

  predicate Listed(s: seq<EventSummary>, k: Key)
  {
    exists m :: 0 <= m < |s| && SummaryKey(s[m]) == k
  }

  /** Ranging over the groups lists each of them once. */
  lemma {:induction false} ListsEachGroup(events: seq<Event>, order: seq<Key>)
    requires Enumerates(order, Grouped(events).Keys)
    ensures var values := ValuesInOrder(order, Grouped(events));
            && EntriesRight(events, values) && DistinctKeys(values)
            && forall k :: Warned(events, k) ==> Listed(values, k)
  {
    var values := ValuesInOrder(order, Grouped(events));
    forall i | 0 <= i < |order| ensures SummaryKey(values[i]) == order[i] && EntryRight(events, values[i]) {
      GroupMeaning(events, order[i]);
    }
    forall k | Warned(events, k) ensures Listed(values, k) {
      GroupMeaning(events, k);
      var at :| 0 <= at < |order| && order[at] == k;
      assert SummaryKey(values[at]) == k;
    }
  }

  /** Rearranging keeps that. */
  lemma {:induction false} RearrangedKeeps(events: seq<Event>, perm: seq<int>, from: seq<EventSummary>,
                                           sorted: seq<EventSummary>, k: Key)
    requires Rearranges(perm, from, sorted)
    ensures EntriesRight(events, from) ==> EntriesRight(events, sorted)
    ensures DistinctKeys(from) ==> DistinctKeys(sorted)
    ensures Listed(from, k) ==> Listed(sorted, k)
  {
    if DistinctKeys(from) {
      forall i, j | 0 <= i < j < |sorted| ensures SummaryKey(sorted[i]) != SummaryKey(sorted[j]) {
        assert perm[i] != perm[j];
      }
    }
    if Listed(from, k) {
      var at :| 0 <= at < |from| && SummaryKey(from[at]) == k;
      assert at in perm;
      var m :| 0 <= m < |perm| && perm[m] == at;
      assert SummaryKey(sorted[m]) == k;
    }
  }

  /** Two loudest warnings of one key are equally loud. */
  lemma {:induction false} LoudestIsMaximal(events: seq<Event>, j: int, s: EventSummary)
    requires IsLoudest(events, j, SummaryKey(s)) && EntryRight(events, s)
    ensures events[j].count == s.count
  {
  }

  /** A key that no longer fits is no louder than what is kept. */
  lemma {:induction false} DroppedIsQuieter(events: seq<Event>, sorted: seq<EventSummary>, j: int, k: Key)
    requires EntriesRight(events, sorted) && Descending(sorted) && Listed(sorted, k)
    requires IsLoudest(events, j, k) && NotListed(Truncate(sorted), k)
    ensures |Truncate(sorted)| == MAX_WARNING_EVENTS
    ensures forall i :: 0 <= i < |Truncate(sorted)| ==> events[j].count <= Truncate(sorted)[i].count
  {
    var m :| 0 <= m < |sorted| && SummaryKey(sorted[m]) == k;
    assert m >= |Truncate(sorted)| by {
      assert m < |Truncate(sorted)| ==> Truncate(sorted)[m] == sorted[m];
    }
    LoudestIsMaximal(events, j, sorted[m]);
  }

  /** Whatever order the map yields and whichever way ties fall, the result is right. */
  lemma {:induction false} TopGroups(events: seq<Event>, order: seq<Key>, perm: seq<int>, sorted: seq<EventSummary>)
    requires Enumerates(order, Grouped(events).Keys)
    requires Rearranges(perm, ValuesInOrder(order, Grouped(events)), sorted) && Descending(sorted)
    ensures IsSummary(events, Truncate(sorted))
  {
    var values := ValuesInOrder(order, Grouped(events));
    ListsEachGroup(events, order);
    RearrangedKeeps(events, perm, values, sorted, Key("", ""));
    forall j, k | IsLoudest(events, j, k) && NotListed(Truncate(sorted), k)
      ensures |Truncate(sorted)| == MAX_WARNING_EVENTS
      ensures forall i :: 0 <= i < |Truncate(sorted)| ==> events[j].count <= Truncate(sorted)[i].count
    {
      assert Warned(events, k);
      RearrangedKeeps(events, perm, values, sorted, k);
      DroppedIsQuieter(events, sorted, j, k);
    }
  }

  // ----- the collector -----

  method Group(events: seq<Event>) returns (grouped: map<Key, EventSummary>)
    ensures grouped == Grouped(events)
  {
    grouped := map[];
    for i := 0 to |events|
      invariant grouped == Grouped(events[..i])
    {
      assert events[..i + 1][..i] == events[..i];
      var ev := events[i];
      if ev.warning {
        var k := Key(ev.reason, ev.kind + "/" + ev.name);
        if k in grouped {
          if ev.count > grouped[k].count {
            grouped := grouped[k := grouped[k].(count := ev.count, message := ev.message,
                lastObservedAt := ev.lastTimestamp)];
          }
        } else {
          grouped := grouped[k := EventSummary(ev.reason, ev.message, ev.count, ev.lastTimestamp, k.involved)];
        }
      }
      GroupMeaning(events[..i], KeyOf(ev));
    }
    assert events[..|events|] == events;
  }

  lemma {:induction false} InsertionCovers(perm: seq<int>, n: nat, at: nat)
    requires at <= |perm| && forall k :: 0 <= k < n ==> k in perm
    ensures forall k :: 0 <= k < n + 1 ==> k in perm[..at] + [n] + perm[at..]
  {
    var p := perm[..at] + [n] + perm[at..];
    forall k | 0 <= k < n + 1 ensures k in p {
      if k == n {
        assert p[at] == k;
      } else {
        assert k in perm;
        var i :| 0 <= i < |perm| && perm[i] == k;
        assert p[if i < at then i else i + 1] == k;
      }
    }
  }

  lemma {:induction false} InsertionKeepsPlaces(perm: seq<int>, from: seq<EventSummary>, sorted: seq<EventSummary>,
                                                x: EventSummary, at: nat)
    requires |perm| == |sorted| && at <= |perm|
    requires forall i :: 0 <= i < |perm| ==> 0 <= perm[i] < |from| && sorted[i] == from[perm[i]]
    ensures var p, s := perm[..at] + [|from|] + perm[at..], sorted[..at] + [x] + sorted[at..];
            |p| == |s| && forall i :: 0 <= i < |p| ==> 0 <= p[i] < |from| + 1 && s[i] == (from + [x])[p[i]]
  {
  }

  lemma {:induction false} InsertionRearranges(perm: seq<int>, from: seq<EventSummary>, sorted: seq<EventSummary>,
                                               x: EventSummary, at: nat)
    requires Rearranges(perm, from, sorted) && at <= |perm|
    ensures Rearranges(perm[..at] + [|from|] + perm[at..], from + [x], sorted[..at] + [x] + sorted[at..])
  {
    InsertionCovers(perm, |from|, at);
    InsertionKeepsPlaces(perm, from, sorted, x, at);
    var p := perm[..at] + [|from|] + perm[at..];
    forall i, j | 0 <= i < j < |p| ensures p[i] != p[j] {
    }
  }

  lemma {:induction false} InsertionKeepsOrder(sorted: seq<EventSummary>, x: EventSummary, at: nat)
    requires Descending(sorted) && at <= |sorted|
    requires forall i :: 0 <= i < at ==> sorted[i].count >= x.count
    requires at < |sorted| ==> sorted[at].count < x.count
    ensures Descending(sorted[..at] + [x] + sorted[at..])
  {
  }

  /** Stands for the library sort: only its contract matters. */
  method SortByCount(from: seq<EventSummary>) returns (sorted: seq<EventSummary>, ghost perm: seq<int>)
    ensures Rearranges(perm, from, sorted) && Descending(sorted)
  {
    sorted, perm := [], [];
    for n := 0 to |from|
      invariant Rearranges(perm, from[..n], sorted) && Descending(sorted)
    {
      var at := 0;
      while at < |sorted| && sorted[at].count >= from[n].count
        invariant 0 <= at <= |sorted|
        invariant forall i :: 0 <= i < at ==> sorted[i].count >= from[n].count
      {
        at := at + 1;
      }
      InsertionRearranges(perm, from[..n], sorted, from[n], at);
      InsertionKeepsOrder(sorted, from[n], at);
      assert from[..n] + [from[n]] == from[..n + 1];
      sorted, perm := sorted[..at] + [from[n]] + sorted[at..], perm[..at] + [n] + perm[at..];
    }
    assert from[..|from|] == from;
  }

  /** `order` is the order in which Go happens to range over the groups. */
  method CollectWarningEvents(events: seq<Event>, order: seq<Key>) returns (results: seq<EventSummary>)
    requires Enumerates(order, Grouped(events).Keys)
    ensures IsSummary(events, results)
  {
    var grouped := Group(events);
    results := [];
    for i := 0 to |order|
      invariant results == ValuesInOrder(order[..i], grouped)
    {
      results := results + [grouped[order[i]]];
    }
    assert order[..|order|] == order;
    var sorted, perm := SortByCount(results);
    TopGroups(events, order, perm, sorted);
    results := sorted;
    if |results| > MAX_WARNING_EVENTS {
      results := results[..MAX_WARNING_EVENTS];
    }
  }
}
