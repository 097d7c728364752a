/** The ordering of the event list: newest first, events of equal time in their given order. */
module EventOrder {
  import opened SecurityTypes

  ghost predicate NewestFirst(events: seq<SecurityEvent>) {
    forall i, j :: 0 <= i < j < |events| ==> events[i].timestamp >= events[j].timestamp
  }

  /** Inserts an event that precedes all of `sorted` in the original list. */
  function Insert(event: SecurityEvent, sorted: seq<SecurityEvent>): seq<SecurityEvent> {
    if sorted == [] || sorted[0].timestamp <= event.timestamp then
      [event] + sorted
    else
      [sorted[0]] + Insert(event, sorted[1..])
  }

  function SortNewestFirst(events: seq<SecurityEvent>): seq<SecurityEvent> {
    if events == [] then [] else Insert(events[0], SortNewestFirst(events[1..]))
  }

  /** The events of one moment, in list order. */
  ghost function At(events: seq<SecurityEvent>, time: int): seq<SecurityEvent> {
    if events == [] then []
    else (if events[0].timestamp == time then [events[0]] else []) + At(events[1..], time)
  }

  lemma {:induction false} InsertKeeps(event: SecurityEvent, sorted: seq<SecurityEvent>)
    ensures multiset(Insert(event, sorted)) == multiset{event} + multiset(sorted)
  {
    if sorted != [] && sorted[0].timestamp > event.timestamp {
      InsertKeeps(event, sorted[1..]);
      assert sorted == [sorted[0]] + sorted[1..];
    }
  }

  lemma {:induction false} InsertBelow(event: SecurityEvent, sorted: seq<SecurityEvent>, bound: int)
    requires event.timestamp <= bound
    requires forall i :: 0 <= i < |sorted| ==> sorted[i].timestamp <= bound
    ensures forall i :: 0 <= i < |Insert(event, sorted)| ==> Insert(event, sorted)[i].timestamp <= bound
  {
    if sorted != [] && sorted[0].timestamp > event.timestamp {
      InsertBelow(event, sorted[1..], bound);
    }
  }

  lemma {:induction false} InsertSorts(event: SecurityEvent, sorted: seq<SecurityEvent>)
    requires NewestFirst(sorted)
    ensures NewestFirst(Insert(event, sorted))
  {
    if sorted != [] && sorted[0].timestamp > event.timestamp {
      InsertSorts(event, sorted[1..]);
      InsertBelow(event, sorted[1..], sorted[0].timestamp);
    }
  }

  /** Sorting gives a permutation with the newest event first. */
  lemma {:induction false} SortSorts(events: seq<SecurityEvent>)
    ensures NewestFirst(SortNewestFirst(events))
    ensures multiset(SortNewestFirst(events)) == multiset(events)
  {
    if events != [] {
      SortSorts(events[1..]);
      InsertSorts(events[0], SortNewestFirst(events[1..]));
      InsertKeeps(events[0], SortNewestFirst(events[1..]));
      assert events == [events[0]] + events[1..];
    }
  }

  lemma {:induction false} InsertStable(event: SecurityEvent, sorted: seq<SecurityEvent>, time: int)
    ensures At(Insert(event, sorted), time) == At([event] + sorted, time)
  {
    assert ([event] + sorted)[1..] == sorted;
    if sorted != [] && sorted[0].timestamp > event.timestamp {
      var rest := Insert(event, sorted[1..]);
      InsertStable(event, sorted[1..], time);
      assert ([sorted[0]] + rest)[1..] == rest;
      assert ([event] + sorted[1..])[1..] == sorted[1..];
    }
  }

  /** Sorting keeps the given order among events of the same moment. */
  lemma {:induction false} SortStable(events: seq<SecurityEvent>, time: int)
    ensures At(SortNewestFirst(events), time) == At(events, time)
  {
    if events != [] {
      var rest := SortNewestFirst(events[1..]);
      SortStable(events[1..], time);
      InsertStable(events[0], rest, time);
      assert ([events[0]] + rest)[1..] == rest;
    }
  }

  lemma {:induction false} AtEmpty(events: seq<SecurityEvent>, time: int)
    ensures At(events, time) != [] <==> exists e :: e in events && e.timestamp == time
  {
    if events != [] {
      AtEmpty(events[1..], time);
      assert events == [events[0]] + events[1..];
    }
  }

  /** A sorted list is settled by what it holds at each moment, so every stable sort gives the
      same list, whatever its algorithm. */
  lemma {:induction false} SortedListUnique(a: seq<SecurityEvent>, b: seq<SecurityEvent>)
    requires NewestFirst(a) && NewestFirst(b)
    requires forall time :: At(a, time) == At(b, time)
    ensures a == b
  {
    if a == [] || b == [] {
      if b != [] {
        AtEmpty(b, b[0].timestamp);
      }
      if a != [] {
        AtEmpty(a, a[0].timestamp);
      }
    } else {
      AtEmpty(a, a[0].timestamp);
      AtEmpty(b, a[0].timestamp);
      AtEmpty(a, b[0].timestamp);
      AtEmpty(b, b[0].timestamp);
      var now := a[0].timestamp;
      assert now == b[0].timestamp;
      assert At(a, now)[0] == a[0] && At(b, now)[0] == b[0];
      forall time ensures At(a[1..], time) == At(b[1..], time) {
        assert At(a, time) == At(b, time);
        var head := if a[0].timestamp == time then [a[0]] else [];
        assert At(a, time)[|head|..] == At(a[1..], time);
        assert At(b, time)[|head|..] == At(b[1..], time);
      }
      SortedListUnique(a[1..], b[1..]);
      assert a == [a[0]] + a[1..] && b == [b[0]] + b[1..];
    }
  }

  /** Any newest-first list that keeps the order inside each moment is the one the store keeps. */
  lemma StableSortUnique(events: seq<SecurityEvent>, result: seq<SecurityEvent>)
    requires NewestFirst(result)
    requires forall time :: At(result, time) == At(events, time)
    ensures result == SortNewestFirst(events)
  {
    SortSorts(events);
    forall time ensures At(result, time) == At(SortNewestFirst(events), time) {
      SortStable(events, time);
    }
    SortedListUnique(result, SortNewestFirst(events));
  }

  /** Sorting a list already in order changes nothing. */
  lemma SortFixed(events: seq<SecurityEvent>)
    requires NewestFirst(events)
    ensures SortNewestFirst(events) == events
  {
    StableSortUnique(events, events);
  }
}
