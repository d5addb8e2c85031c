/**
 * The pending-event list of the loss-system simulator: the events, the
 * ordering the simulator applies before each extraction, and counts of the
 * events of each kind.
 */
module EventList {

  /** What happens when an event fires. An end of service carries the index
      the simulator tagged it with when it admitted the arrival. */
  datatype Kind = Arrival | EndOfService(server: int)

  /** A pending event: its kind and the simulated time at which it fires. */
  datatype Event = Event(kind: Kind, time: real)

  /** Times never decrease along `s`. */
  ghost predicate Sorted(s: seq<Event>)
  {
    forall i, j :: 0 <= i < j < |s| ==> s[i].time <= s[j].time
  }

  /** A sorted list stays sorted with an event in front that fires no later
      than any of its elements. */
  lemma SortedCons(x: Event, s: seq<Event>)
    requires Sorted(s)
    requires forall k :: 0 <= k < |s| ==> x.time <= s[k].time
    ensures Sorted([x] + s)
  {
  }

  /** A sorted list stays sorted with an event at the back that fires no
      earlier than any of its elements. */
  lemma SortedSnoc(s: seq<Event>, x: Event)
    requires Sorted(s)
    requires forall k :: 0 <= k < |s| ==> s[k].time <= x.time
    ensures Sorted(s + [x])
  {
  }

  /** `e` fires at time `t` or later. */
  predicate NotBefore(e: Event, t: real)
  {
    t <= e.time
  }

  /** Puts `e` in front of the first element of `s` that fires no earlier
      than it: `e` goes after every strictly earlier event at the head of `s`
      and before an event at the same time. */
  function Insert(e: Event, s: seq<Event>): (r: seq<Event>)
    ensures |r| == |s| + 1
  {
    if s == [] || e.time <= s[0].time then [e] + s
    else [s[0]] + Insert(e, s[1..])
  }

  /** Inserting adds `e` and keeps every event of `s`. */
  lemma {:induction false} InsertPermutes(e: Event, s: seq<Event>)
    ensures multiset(Insert(e, s)) == multiset(s) + multiset{e}
  {
    if s != [] && s[0].time < e.time {
      InsertPermutes(e, s[1..]);
      assert s == [s[0]] + s[1..];
    }
  }

  /** Inserting into a sorted list keeps it sorted. */
  lemma {:induction false} InsertSorted(e: Event, s: seq<Event>)
    requires Sorted(s)
    ensures Sorted(Insert(e, s))
  {
    if s == [] || e.time <= s[0].time {
      SortedCons(e, s);
    } else {
      var tail := Insert(e, s[1..]);
      InsertSorted(e, s[1..]);
      InsertPermutes(e, s[1..]);
      forall k | 0 <= k < |tail|
        ensures s[0].time <= tail[k].time
      {
        assert tail[k] in multiset(tail);
        if tail[k] != e {
          assert tail[k] in multiset(s[1..]);
          var m :| 0 <= m < |s[1..]| && s[1..][m] == tail[k];
          assert s[1 + m] == tail[k];
        }
      }
      SortedCons(s[0], tail);
    }
  }

  /** The list ordered by time by insertion sort: each event, taken from the
      back of the list to the front, is put before the events that do not
      fire earlier than it. */
  function SortByTime(s: seq<Event>): (r: seq<Event>)
    ensures |r| == |s|
  {
    if s == [] then [] else Insert(s[0], SortByTime(s[1..]))
  }

  /** Sorting leaves the list in time order. */
  lemma {:induction false} SortByTimeSorted(s: seq<Event>)
    ensures Sorted(SortByTime(s))
  {
    if s != [] {
      SortByTimeSorted(s[1..]);
      InsertSorted(s[0], SortByTime(s[1..]));
    }
  }

  /** Sorting neither loses nor adds an event. */
  lemma {:induction false} SortByTimePermutes(s: seq<Event>)
    ensures multiset(SortByTime(s)) == multiset(s)
  {
    if s != [] {
      SortByTimePermutes(s[1..]);
      InsertPermutes(s[0], SortByTime(s[1..]));
      assert s == [s[0]] + s[1..];
    }
  }

  /** Sorting a list that is already in time order leaves it as it is. */
  lemma {:induction false} SortSortedIsIdentity(s: seq<Event>)
    requires Sorted(s)
    ensures SortByTime(s) == s
  {
    if s != [] {
      SortSortedIsIdentity(s[1..]);
      assert s == [s[0]] + s[1..];
    }
  }

  /** The head of the sorted list is an event of `s` that fires no later than
      any event of `s`, and the tail holds exactly the other events. */
  lemma EarliestFirst(s: seq<Event>)
    requires s != []
    ensures SortByTime(s)[0] in s
    ensures forall e :: e in s ==> NotBefore(e, SortByTime(s)[0].time)
    ensures multiset(SortByTime(s)[1..]) + multiset{SortByTime(s)[0]} == multiset(s)
    ensures Sorted(SortByTime(s)[1..])
  {
    var r := SortByTime(s);
    SortByTimeSorted(s);
    SortByTimePermutes(s);
    assert r == [r[0]] + r[1..];
    assert r[0] in multiset(s);
    forall e | e in s
      ensures NotBefore(e, r[0].time)
    {
      assert e in multiset(r);
      var j :| 0 <= j < |r| && r[j] == e;
    }
  }

  /** Index of the event of `s` that fires first, the leftmost one when
      several fire at that same earliest time. */
  function FirstEarliest(s: seq<Event>): (k: nat)
    requires s != []
    ensures k < |s|
    ensures forall j :: 0 <= j < |s| ==> s[k].time <= s[j].time
    ensures forall j :: 0 <= j < k ==> s[k].time < s[j].time
  {
    if |s| == 1 then 0
    else
      var k := FirstEarliest(s[1..]) + 1;
      if s[0].time <= s[k].time then 0 else k
  }

  /** Sorting is stable where the simulator looks: the head of the sorted
      list is the leftmost of the earliest events. */
  lemma {:induction false} SortHeadIsFirstEarliest(s: seq<Event>)
    requires s != []
    ensures SortByTime(s)[0] == s[FirstEarliest(s)]
  {
    if |s| > 1 {
      SortHeadIsFirstEarliest(s[1..]);
    }
  }

  /** 1 when `e` is of the kind selected by `arrival`, 0 otherwise. */
  function Tally(e: Event, arrival: bool): nat
  {
    if e.kind.Arrival? == arrival then 1 else 0
  }

  /** Number of events of `s` that are arrivals (when `arrival`) or ends of
      service (otherwise). */
  function CountKind(s: seq<Event>, arrival: bool): (n: nat)
    ensures n <= |s|
  {
    if s == [] then 0
    else Tally(s[0], arrival) + CountKind(s[1..], arrival)
  }

  /** Every event is either an arrival or an end of service. */
  lemma {:induction false} CountKindCovers(s: seq<Event>)
    ensures CountKind(s, true) + CountKind(s, false) == |s|
  {
    if s != [] {
      CountKindCovers(s[1..]);
    }
  }

  lemma {:induction false} CountKindAppend(a: seq<Event>, b: seq<Event>, arrival: bool)
    ensures CountKind(a + b, arrival) == CountKind(a, arrival) + CountKind(b, arrival)
    decreases |a|
  {
    if a == [] {
      assert a + b == b;
    } else {
      assert (a + b)[1..] == a[1..] + b;
      CountKindAppend(a[1..], b, arrival);
    }
  }

  /** Taking the event at index `j` out of `b` removes one occurrence of it
      and lowers the count of its kind by one. */
  lemma RemoveAt(b: seq<Event>, j: nat, arrival: bool)
    requires j < |b|
    ensures multiset(b[..j] + b[j + 1..]) + multiset{b[j]} == multiset(b)
    ensures CountKind(b, arrival) == CountKind(b[..j] + b[j + 1..], arrival) + Tally(b[j], arrival)
  {
    assert b == b[..j] + ([b[j]] + b[j + 1..]);
    CountKindAppend(b[..j], [b[j]] + b[j + 1..], arrival);
    CountKindAppend([b[j]], b[j + 1..], arrival);
    CountKindAppend(b[..j], b[j + 1..], arrival);
  }

  lemma MultisetCancel(a: seq<Event>, b: seq<Event>, x: Event)
    requires multiset(a) + multiset{x} == multiset(b) + multiset{x}
    ensures multiset(a) == multiset(b)
  {
    forall y
      ensures multiset(a)[y] == multiset(b)[y]
    {
      assert (multiset(a) + multiset{x})[y] == (multiset(b) + multiset{x})[y];
    }
  }

  /** Counts depend only on which events are in the list, not on their order. */
  lemma {:induction false} CountKindPermutation(a: seq<Event>, b: seq<Event>, arrival: bool)
    requires multiset(a) == multiset(b)
    ensures CountKind(a, arrival) == CountKind(b, arrival)
    decreases |a|
  {
    if a == [] {
      assert |b| == |multiset(b)| == 0;
    } else {
      var x, a' := a[0], a[1..];
      assert a == [x] + a';
      assert x in multiset(b);
      var j :| 0 <= j < |b| && b[j] == x;
      var b' := b[..j] + b[j + 1..];
      RemoveAt(b, j, arrival);
      MultisetCancel(a', b', x);
      CountKindPermutation(a', b', arrival);
    }
  }

  /** Taking `ev` out of `s`, leaving `rest`, lowers the count of its kind by
      one and leaves the other count as it was. */
  lemma CountKindRemove(s: seq<Event>, ev: Event, rest: seq<Event>, arrival: bool)
    requires multiset(rest) + multiset{ev} == multiset(s)
    ensures CountKind(s, arrival) == CountKind(rest, arrival) + Tally(ev, arrival)
  {
    assert multiset(rest + [ev]) == multiset(s);
    CountKindPermutation(rest + [ev], s, arrival);
    CountKindAppend(rest, [ev], arrival);
  }

  /** Appending `ev` raises the count of its kind by one. */
  lemma CountKindSnoc(s: seq<Event>, ev: Event, arrival: bool)
    ensures CountKind(s + [ev], arrival) == CountKind(s, arrival) + Tally(ev, arrival)
  {
    CountKindAppend(s, [ev], arrival);
  }
}
