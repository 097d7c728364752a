/** Lists of records looked up by a key that is computed from the record: a bounded list updated in
    place, against a map that evicts, and the insertion-ordered `Map` of JavaScript. */
module KeyedLists {
  import opened SecurityTypes
  import opened Sequences

  function Keys<A, K>(list: seq<A>, key: A -> K): (r: seq<K>)
    ensures |r| == |list|
    ensures forall i :: 0 <= i < |r| ==> r[i] == key(list[i])
  {
    seq(|list|, i requires 0 <= i < |list| => key(list[i]))
  }

  lemma KeysSnoc<A, K>(front: seq<A>, last: A, key: A -> K)
    ensures Keys(front + [last], key) == Keys(front, key) + [key(last)]
  {
  }

  ghost predicate Once<K>(keys: seq<K>) {
    forall i, j :: 0 <= i < j < |keys| ==> keys[i] != keys[j]
  }

  lemma {:induction false} SizeOnce<K>(keys: seq<K>, all: set<K>)
    requires Once(keys) && forall k :: k in all <==> k in keys
    ensures |all| == |keys|
  {
    if keys == [] {
      assert all == {};
    } else {
      var front, last := keys[..|keys| - 1], keys[|keys| - 1];
      assert keys == front + [last];
      SizeOnce(front, all - {last});
    }
  }

  lemma FirstIndexIs<K>(keys: seq<K>, k: K, i: nat)
    requires i < |keys| && keys[i] == k && k !in keys[..i]
    ensures FirstIndex(keys, k) == i
  {
    var first := FirstIndex(keys, k);
    assert forall j :: 0 <= j < i ==> keys[..i][j] == keys[j];
    assert forall j :: 0 <= j < first ==> keys[..first][j] == keys[j];
  }

  // ---- The bounded list ----

  /** Replaces the first record of the same key in place, or puts a new one in front; what is beyond the
      capacity is cut off. */
  function Upsert<A, K(==)>(list: seq<A>, x: A, key: A -> K, capacity: nat): seq<A> {
    var keys := Keys(list, key);
    Limit(if key(x) in keys then list[FirstIndex(keys, key(x)) := x] else [x] + list, capacity)
  }

  /** The list after a run of upserts that starts from nothing. */
  function Upserts<A, K(==)>(given: seq<A>, key: A -> K, capacity: nat): seq<A> {
    if given == [] then []
    else Upsert(Upserts(given[..|given| - 1], key, capacity), given[|given| - 1], key, capacity)
  }

  /** The first record under a key. */
  function Lookup<A, K(==)>(list: seq<A>, k: K, key: A -> K): Option<A> {
    if k in Keys(list, key) then Some(list[FirstIndex(Keys(list, key), k)]) else None
  }

  /** What was just upserted is found, exactly when its key was new or its first record lay within the
      capacity. */
  lemma UpsertedIsFoundExactly<A, K>(list: seq<A>, x: A, key: A -> K, capacity: nat)
    requires capacity > 0
    ensures Lookup(Upsert(list, x, key, capacity), key(x), key) == Some(x)
            <==> (key(x) in Keys(list, key) ==> FirstIndex(Keys(list, key), key(x)) < capacity)
  {
    var keys, after := Keys(list, key), Upsert(list, x, key, capacity);
    if key(x) !in keys {
      FirstIndexIs(Keys(after, key), key(x), 0);
    } else {
      var i := FirstIndex(keys, key(x));
      if i < capacity {
        assert forall j :: 0 <= j < i ==> keys[..i][j] == Keys(after, key)[j];
        FirstIndexIs(Keys(after, key), key(x), i);
      } else {
        assert forall j :: 0 <= j < |after| ==> Keys(after, key)[j] == keys[..i][j];
        assert key(x) !in Keys(after, key);
      }
    }
  }

  // ---- The same list as a map that evicts ----

  /** A record with the number under which its key was first inserted. */
  datatype Slot<A> = Slot(number: nat, record: A)

  datatype Cache<K, A> = Cache(slots: map<K, Slot<A>>, next: nat)

  ghost function DropOldest<A, K>(slots: map<K, Slot<A>>): map<K, Slot<A>> {
    map k | k in slots && exists other | other in slots :: slots[other].number < slots[k].number :: slots[k]
  }

  ghost function Evict<A, K>(slots: map<K, Slot<A>>, capacity: nat): map<K, Slot<A>> {
    if |slots| > capacity then DropOldest(slots) else slots
  }

  /** A key that is present keeps its number; a new one takes the next number and, in a full map, pushes
      out the key inserted longest ago. */
  ghost function Put<A, K>(cache: Cache<K, A>, k: K, x: A, capacity: nat): Cache<K, A> {
    if k in cache.slots then
      cache.(slots := cache.slots[k := Slot(cache.slots[k].number, x)])
    else
      Cache(Evict(cache.slots[k := Slot(cache.next, x)], capacity), cache.next + 1)
  }

  ghost function Puts<A, K>(given: seq<A>, key: A -> K, capacity: nat): Cache<K, A> {
    if given == [] then Cache(map[], 0)
    else
      var last := given[|given| - 1];
      Put(Puts(given[..|given| - 1], key, capacity), key(last), last, capacity)
  }

  /** The list shows the records of the map, youngest insertion first. */
  ghost predicate Shows<A, K>(list: seq<A>, keys: seq<K>, slots: map<K, Slot<A>>)
    requires |keys| == |list|
  {
    && (forall i | 0 <= i < |keys| :: keys[i] in slots && slots[keys[i]].record == list[i])
    && (forall k | k in slots :: k in keys)
    && (forall i, j | 0 <= i < j < |keys| :: slots[keys[j]].number < slots[keys[i]].number)
  }

  ghost predicate Represents<A, K>(list: seq<A>, cache: Cache<K, A>, key: A -> K, capacity: nat) {
    && |list| <= capacity && Shows(list, Keys(list, key), cache.slots)
    && forall k | k in cache.slots :: cache.slots[k].number < cache.next
  }

  lemma ShownOnce<A, K>(list: seq<A>, keys: seq<K>, slots: map<K, Slot<A>>)
    requires |keys| == |list| && Shows(list, keys, slots)
    ensures Once(keys) && |slots| == |list|
  {
    SizeOnce(keys, slots.Keys);
  }

  lemma ShowsUpdate<A, K>(list: seq<A>, keys: seq<K>, slots: map<K, Slot<A>>, x: A, at: nat)
    requires |keys| == |list| && Shows(list, keys, slots) && at < |list|
    ensures Shows(list[at := x], keys, slots[keys[at] := Slot(slots[keys[at]].number, x)])
  {
    ShownOnce(list, keys, slots);
    assert forall i :: 0 <= i < |keys| && i != at ==> keys[i] != keys[at];
  }

  lemma ShowsPrepend<A, K>(list: seq<A>, keys: seq<K>, slots: map<K, Slot<A>>, k: K, x: A, number: nat)
    requires |keys| == |list| && Shows(list, keys, slots) && k !in keys
    requires forall other | other in slots :: slots[other].number < number
    ensures Shows([x] + list, [k] + keys, slots[k := Slot(number, x)])
  {
  }

  /** In a list ordered by number, the oldest key is the last one. */
  lemma LastIsOldest<A, K>(list: seq<A>, keys: seq<K>, slots: map<K, Slot<A>>)
    requires |keys| == |list| > 0 && Shows(list, keys, slots)
    ensures DropOldest(slots) == slots - {keys[|keys| - 1]}
  {
    var last := keys[|keys| - 1];
    forall k | k in slots ensures k == last || slots[last].number < slots[k].number {
      var i :| 0 <= i < |keys| && keys[i] == k;
    }
  }

  lemma InFront<K>(keys: seq<K>, k: K)
    requires keys != [] && k in keys && k != keys[|keys| - 1]
    ensures k in keys[..|keys| - 1]
  {
    var i :| 0 <= i < |keys| && keys[i] == k;
    assert keys[..|keys| - 1][i] == k;
  }

  lemma ShowsDropLast<A, K>(list: seq<A>, keys: seq<K>, slots: map<K, Slot<A>>)
    requires |keys| == |list| > 0 && Shows(list, keys, slots)
    ensures Shows(list[..|list| - 1], keys[..|list| - 1], slots - {keys[|list| - 1]})
  {
    var n := |list| - 1;
    var front, rest := keys[..n], slots - {keys[n]};
    forall i | 0 <= i < n ensures front[i] in rest && rest[front[i]] == slots[keys[i]] {
      assert slots[keys[n]].number < slots[keys[i]].number;
    }
    forall k | k in rest ensures k in front {
      InFront(keys, k);
    }
  }

  /** One upsert on the list is one put into the map. */
  lemma UpsertRefinesPut<A, K>(list: seq<A>, cache: Cache<K, A>, x: A, key: A -> K, capacity: nat)
    requires Represents(list, cache, key, capacity)
    ensures Represents(Upsert(list, x, key, capacity), Put(cache, key(x), x, capacity), key, capacity)
  {
    if key(x) in Keys(list, key) {
      UpdateRefines(list, cache, x, key, capacity);
    } else {
      InsertShows(list, cache, x, key, capacity);
      LimitKeys(list, x, key, capacity);
    }
  }

  lemma UpdateRefines<A, K>(list: seq<A>, cache: Cache<K, A>, x: A, key: A -> K, capacity: nat)
    requires Represents(list, cache, key, capacity) && key(x) in Keys(list, key)
    ensures Represents(Upsert(list, x, key, capacity), Put(cache, key(x), x, capacity), key, capacity)
  {
    var keys := Keys(list, key);
    var at := FirstIndex(keys, key(x));
    ShowsUpdate(list, keys, cache.slots, x, at);
    assert Keys(list[at := x], key) == keys;
  }

  lemma EvictRefines<A, K>(list: seq<A>, keys: seq<K>, slots: map<K, Slot<A>>, capacity: nat)
    requires |keys| == |list| <= capacity + 1 && Shows(list, keys, slots)
    ensures Shows(Limit(list, capacity), Limit(keys, capacity), Evict(slots, capacity))
    ensures forall k | k in Evict(slots, capacity) :: k in slots && Evict(slots, capacity)[k] == slots[k]
  {
    ShownOnce(list, keys, slots);
    if |list| > capacity {
      LastIsOldest(list, keys, slots);
      ShowsDropLast(list, keys, slots);
    }
  }

  lemma InsertShows<A, K>(list: seq<A>, cache: Cache<K, A>, x: A, key: A -> K, capacity: nat)
    requires Represents(list, cache, key, capacity) && key(x) !in Keys(list, key)
    ensures key(x) !in cache.slots
    ensures var slots := Evict(cache.slots[key(x) := Slot(cache.next, x)], capacity);
            && Shows(Limit([x] + list, capacity), Limit([key(x)] + Keys(list, key), capacity), slots)
            && forall k | k in slots :: slots[k].number < cache.next + 1
  {
    var keys, k := Keys(list, key), key(x);
    ShowsPrepend(list, keys, cache.slots, k, x, cache.next);
    EvictRefines([x] + list, [k] + keys, cache.slots[k := Slot(cache.next, x)], capacity);
  }

  lemma LimitKeys<A, K>(list: seq<A>, x: A, key: A -> K, capacity: nat)
    requires key(x) !in Keys(list, key)
    ensures Upsert(list, x, key, capacity) == Limit([x] + list, capacity)
    ensures Keys(Upsert(list, x, key, capacity), key) == Limit([key(x)] + Keys(list, key), capacity)
  {
    assert Keys([x] + list, key) == [key(x)] + Keys(list, key);
    KeysOfLimit([x] + list, key, capacity);
  }

  lemma KeysOfLimit<A, K>(list: seq<A>, key: A -> K, capacity: nat)
    ensures Keys(Limit(list, capacity), key) == Limit(Keys(list, key), capacity)
  {
  }

  /** Over any run of upserts the list is the bounded map, so it holds each key once. */
  lemma {:induction false} UpsertsRefineMap<A, K>(given: seq<A>, key: A -> K, capacity: nat)
    ensures Represents(Upserts(given, key, capacity), Puts(given, key, capacity), key, capacity)
    ensures Once(Keys(Upserts(given, key, capacity), key)) && |Upserts(given, key, capacity)| <= capacity
  {
    if given != [] {
      var front := given[..|given| - 1];
      UpsertsRefineMap(front, key, capacity);
      UpsertRefinesPut(Upserts(front, key, capacity), Puts(front, key, capacity), given[|given| - 1], key, capacity);
    }
    var list := Upserts(given, key, capacity);
    ShownOnce(list, Keys(list, key), Puts(given, key, capacity).slots);
  }

  /** The record given last is always found. */
  lemma LastIsFound<A, K>(given: seq<A>, key: A -> K, capacity: nat)
    requires given != [] && capacity > 0
    ensures Lookup(Upserts(given, key, capacity), key(given[|given| - 1]), key) == Some(given[|given| - 1])
  {
    var front, last := given[..|given| - 1], given[|given| - 1];
    UpsertsRefineMap(front, key, capacity);
    UpsertedIsFoundExactly(Upserts(front, key, capacity), last, key, capacity);
  }

  // ---- What a run remembers ----

  /** The record most recently given for a key. */
  function Latest<A, K(==)>(given: seq<A>, k: K, key: A -> K): (x: A)
    requires k in Keys(given, key)
    ensures x in given && key(x) == k
  {
    var front, last := given[..|given| - 1], given[|given| - 1];
    if key(last) == k then last
    else
      assert given == front + [last];
      KeysSnoc(front, last, key);
      Latest(front, k, key)
  }

  lemma FoundAt<A, K>(list: seq<A>, i: nat, key: A -> K)
    requires Once(Keys(list, key)) && i < |list|
    ensures Lookup(list, key(list[i]), key) == Some(list[i])
  {
    var keys := Keys(list, key);
    assert forall j :: 0 <= j < i ==> keys[..i][j] == keys[j] && keys[j] != keys[i];
    FirstIndexIs(keys, keys[i], i);
  }

  lemma LookupUpdate<A, K>(list: seq<A>, x: A, at: nat, k: K, key: A -> K)
    requires Once(Keys(list, key)) && at < |list| && key(list[at]) == key(x)
    ensures Lookup(list[at := x], k, key) == if k == key(x) then Some(x) else Lookup(list, k, key)
  {
    assert Keys(list[at := x], key) == Keys(list, key);
    FoundAt(list[at := x], at, key);
  }

  lemma LookupPrepend<A, K>(list: seq<A>, x: A, k: K, key: A -> K)
    ensures Lookup([x] + list, k, key) == if k == key(x) then Some(x) else Lookup(list, k, key)
  {
    var keys := Keys([x] + list, key);
    assert keys == [key(x)] + Keys(list, key) && keys[1..] == Keys(list, key);
    assert k in keys <==> k == key(x) || k in Keys(list, key);
  }

  /** An upsert that pushes nothing out changes what is found under its own key only. */
  lemma UpsertIsUpdate<A, K>(list: seq<A>, x: A, k: K, key: A -> K, capacity: nat)
    requires Once(Keys(list, key)) && |list| <= capacity
    requires key(x) in Keys(list, key) || |list| < capacity
    ensures Lookup(Upsert(list, x, key, capacity), k, key)
            == if k == key(x) then Some(x) else Lookup(list, k, key)
  {
    if key(x) in Keys(list, key) {
      LookupUpdate(list, x, FirstIndex(Keys(list, key), key(x)), k, key);
    } else {
      LookupPrepend(list, x, k, key);
    }
  }

  /** Nothing is kept under a key that was never given. */
  lemma {:induction false} KeepsGivenOnly<A, K>(given: seq<A>, k: K, key: A -> K, capacity: nat)
    requires k in Keys(Upserts(given, key, capacity), key)
    ensures k in Keys(given, key)
  {
    if given != [] {
      var front, last := given[..|given| - 1], given[|given| - 1];
      assert given == front + [last];
      KeysSnoc(front, last, key);
      var before := Upserts(front, key, capacity);
      UpsertKeys(before, last, k, key, capacity);
      if k != key(last) {
        KeepsGivenOnly(front, k, key, capacity);
      }
    }
  }

  lemma UpsertKeys<A, K>(list: seq<A>, x: A, k: K, key: A -> K, capacity: nat)
    requires k in Keys(Upsert(list, x, key, capacity), key)
    ensures k == key(x) || k in Keys(list, key)
  {
    var after := Upsert(list, x, key, capacity);
    var i :| 0 <= i < |after| && Keys(after, key)[i] == k;
    assert after[i] == x || after[i] in list;
    if after[i] in list {
      var j :| 0 <= j < |list| && list[j] == after[i];
      assert Keys(list, key)[j] == k;
    }
  }

  ghost function KeySet<A, K>(given: seq<A>, key: A -> K): set<K> {
    set k | k in Keys(given, key)
  }

  ghost predicate RemembersAll<A, K(!new)>(given: seq<A>, key: A -> K, capacity: nat) {
    forall k | k in Keys(given, key) :: Lookup(Upserts(given, key, capacity), k, key) == Some(Latest(given, k, key))
  }

  /** A run remembers the latest record of every key it was given, exactly when it was given no more keys
      than the capacity. */
  lemma RemembersAllExactly<A, K(!new)>(given: seq<A>, key: A -> K, capacity: nat)
    ensures RemembersAll(given, key, capacity) <==> |KeySet(given, key)| <= capacity
  {
    if |KeySet(given, key)| <= capacity {
      RemembersFew(given, key, capacity);
    }
    if RemembersAll(given, key, capacity) {
      var kept := Keys(Upserts(given, key, capacity), key);
      UpsertsRefineMap(given, key, capacity);
      forall k ensures k in KeySet(given, key) <==> k in kept {
        if k in kept {
          KeepsGivenOnly(given, k, key, capacity);
        }
        if k in Keys(given, key) {
          assert Lookup(Upserts(given, key, capacity), k, key).Some?;
        }
      }
      SizeOnce(kept, KeySet(given, key));
    }
  }

  lemma {:induction false} RemembersFew<A, K(!new)>(given: seq<A>, key: A -> K, capacity: nat)
    requires |KeySet(given, key)| <= capacity
    ensures RemembersAll(given, key, capacity)
  {
    if given != [] {
      var front, last := given[..|given| - 1], given[|given| - 1];
      assert given == front + [last];
      KeysSnoc(front, last, key);
      SubsetSize(KeySet(front, key), KeySet(given, key));
      RemembersFew(front, key, capacity);
      UpsertsRefineMap(front, key, capacity);
      var before := Upserts(front, key, capacity);
      if key(last) !in Keys(before, key) {
        HasRoom(front, last, key, capacity);
      }
      forall k | k in Keys(given, key)
        ensures Lookup(Upserts(given, key, capacity), k, key) == Some(Latest(given, k, key))
      {
        UpsertIsUpdate(before, last, k, key, capacity);
      }
    }
  }

  lemma HasRoom<A, K>(front: seq<A>, last: A, key: A -> K, capacity: nat)
    requires |KeySet(front + [last], key)| <= capacity && key(last) !in Keys(Upserts(front, key, capacity), key)
    ensures |Upserts(front, key, capacity)| < capacity
  {
    var kept := Keys(Upserts(front, key, capacity), key);
    KeysSnoc(front, last, key);
    UpsertsRefineMap(front, key, capacity);
    forall k | k in kept ensures k in KeySet(front + [last], key) {
      KeepsGivenOnly(front, k, key, capacity);
    }
    var all := set k | k in kept + [key(last)];
    SizeOnce(kept + [key(last)], all);
    SubsetSize(all, KeySet(front + [last], key));
  }

  lemma SubsetSize<K>(small: set<K>, large: set<K>)
    requires small <= large
    ensures |small| <= |large|
  {
    assert large == small + (large - small);
  }

  // ---- The insertion-ordered map ----

  /** One entry of a JavaScript `Map`, which keeps the order of first insertion. */
  datatype Entry<K, A> = Entry(key: K, value: A)

  function EntryKeys<A, K>(entries: seq<Entry<K, A>>): (r: seq<K>)
    ensures |r| == |entries|
    ensures forall i :: 0 <= i < |r| ==> r[i] == entries[i].key
  {
    seq(|entries|, i requires 0 <= i < |entries| => entries[i].key)
  }

  function MapSet<A, K(==)>(entries: seq<Entry<K, A>>, entry: Entry<K, A>): seq<Entry<K, A>> {
    var keys := EntryKeys(entries);
    if entry.key in keys then entries[FirstIndex(keys, entry.key) := entry] else entries + [entry]
  }

  function Filled<A, K(==)>(given: seq<A>, key: A -> K): seq<Entry<K, A>> {
    if given == [] then []
    else
      var last := given[|given| - 1];
      MapSet(Filled(given[..|given| - 1], key), Entry(key(last), last))
  }

  function Values<A, K>(entries: seq<Entry<K, A>>): (r: seq<A>)
    ensures |r| == |entries|
    ensures forall i :: 0 <= i < |r| ==> r[i] == entries[i].value
  {
    seq(|entries|, i requires 0 <= i < |entries| => entries[i].value)
  }

  function Merged<A, K(==)>(given: seq<A>, key: A -> K): seq<A> {
    Values(Filled(given, key))
  }

  /** `map.set(key(record), record)` for one record after another. */
  method SetAll<A, K(==)>(entries: seq<Entry<K, A>>, ghost given: seq<A>, more: seq<A>, key: A -> K)
    returns (r: seq<Entry<K, A>>)
    requires entries == Filled(given, key)
    ensures r == Filled(given + more, key)
  {
    r := entries;
    assert given + more[..0] == given;
    for i := 0 to |more|
      invariant r == Filled(given + more[..i], key)
    {
      var front := given + more[..i];
      assert given + more[..i + 1] == front + [more[i]];
      assert (front + [more[i]])[..|front|] == front;
      r := MapSet(r, Entry(key(more[i]), more[i]));
    }
    assert more[..|more|] == more;
  }

  ghost predicate IsLatest<A, K>(given: seq<A>, k: K, x: A, key: A -> K) {
    k in Keys(given, key) && x == Latest(given, k, key)
  }

  lemma {:induction false} FilledExactly<A, K>(given: seq<A>, key: A -> K)
    ensures EntryKeys(Filled(given, key)) == Unique(Keys(given, key))
    ensures forall i :: 0 <= i < |Filled(given, key)| ==>
              IsLatest(given, Filled(given, key)[i].key, Filled(given, key)[i].value, key)
  {
    if given != [] {
      var front, last := given[..|given| - 1], given[|given| - 1];
      assert given == front + [last];
      FilledExactly(front, key);
      KeysSnoc(front, last, key);
      UniqueSnoc(Keys(front, key), key(last));
      UniqueDistinct(Keys(front, key));
      var before, after := Filled(front, key), Filled(given, key);
      MapSetExactly(before, Entry(key(last), last));
      forall i | 0 <= i < |after| ensures IsLatest(given, after[i].key, after[i].value, key) {
        if i < |before| && after[i] == before[i] && after[i].key != key(last) {
          assert IsLatest(front, before[i].key, before[i].value, key);
        }
      }
    }
  }

  lemma MapSetExactly<A, K>(entries: seq<Entry<K, A>>, entry: Entry<K, A>)
    requires Once(EntryKeys(entries))
    ensures EntryKeys(MapSet(entries, entry)) == AddUnique(EntryKeys(entries), entry.key)
    ensures forall i :: 0 <= i < |MapSet(entries, entry)| ==>
              if MapSet(entries, entry)[i].key == entry.key then MapSet(entries, entry)[i] == entry
              else i < |entries| && MapSet(entries, entry)[i] == entries[i]
  {
    var keys := EntryKeys(entries);
    if entry.key in keys {
      var at := FirstIndex(keys, entry.key);
      assert forall i :: 0 <= i < |keys| && i != at ==> keys[i] != keys[at];
    } else {
      assert forall i :: 0 <= i < |entries| ==> keys[i] != entry.key;
    }
  }

  /** The values are one record per key, in the order in which keys first occur, and each is the last
      record given for its key. */
  lemma MergedExactly<A, K>(given: seq<A>, key: A -> K)
    ensures Keys(Merged(given, key), key) == Unique(Keys(given, key))
    ensures forall i :: 0 <= i < |Merged(given, key)| ==>
              IsLatest(given, key(Merged(given, key)[i]), Merged(given, key)[i], key)
  {
    FilledExactly(given, key);
    var entries, merged := Filled(given, key), Merged(given, key);
    forall i | 0 <= i < |merged|
      ensures key(merged[i]) == entries[i].key && IsLatest(given, key(merged[i]), merged[i], key)
    {
      assert IsLatest(given, entries[i].key, entries[i].value, key);
    }
  }

  lemma LatestSnoc<A, K>(front: seq<A>, last: A, k: K, key: A -> K)
    ensures k in Keys(front + [last], key) <==> key(last) == k || k in Keys(front, key)
    ensures k in Keys(front + [last], key) ==>
              Latest(front + [last], k, key) == if key(last) == k then last else Latest(front, k, key)
  {
    KeysSnoc(front, last, key);
    assert (front + [last])[..|front|] == front;
  }

  /** Of two lists filled in one after the other, the second hides what the first has under its keys. */
  lemma {:induction false} LaterShadows<A, K>(first: seq<A>, second: seq<A>, k: K, key: A -> K)
    ensures k in Keys(first + second, key) <==> k in Keys(second, key) || k in Keys(first, key)
    ensures k in Keys(first + second, key) ==>
              Latest(first + second, k, key) ==
              if k in Keys(second, key) then Latest(second, k, key) else Latest(first, k, key)
    decreases |second|
  {
    if second == [] {
      assert first + second == first;
    } else {
      var front, last := second[..|second| - 1], second[|second| - 1];
      assert second == front + [last];
      assert first + second == (first + front) + [last];
      LatestSnoc(front, last, k, key);
      LatestSnoc(first + front, last, k, key);
      LaterShadows(first, front, k, key);
    }
  }

  /** What the values of two lists filled in one after the other are: the latest records of the second,
      and those of the first that it does not hide. */
  lemma ListingExactly<A, K>(first: seq<A>, second: seq<A>, x: A, key: A -> K)
    ensures Keys(Merged(first + second, key), key) == Unique(Keys(first, key) + Keys(second, key))
    ensures x in Merged(first + second, key) <==>
            || IsLatest(second, key(x), x, key)
            || (key(x) !in Keys(second, key) && IsLatest(first, key(x), x, key))
  {
    var all, merged := first + second, Merged(first + second, key);
    MergedExactly(all, key);
    assert Keys(all, key) == Keys(first, key) + Keys(second, key);
    LaterShadows(first, second, key(x), key);
    UniqueKeeps(Keys(all, key), key(x));
    if key(x) in Keys(all, key) {
      var i :| 0 <= i < |merged| && Keys(merged, key)[i] == key(x);
      assert IsLatest(all, key(merged[i]), merged[i], key);
    }
    if x in merged {
      var i :| 0 <= i < |merged| && merged[i] == x;
      assert Keys(merged, key)[i] == key(x);
      assert Keys(merged, key)[i] in Unique(Keys(all, key));
    }
  }
}
