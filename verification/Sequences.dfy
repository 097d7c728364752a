/** Array helpers: counting by a predicate, JavaScript sets kept as sequences, and conditional lists. */
module Sequences {
  import opened SecurityTypes

  function Count<T>(xs: seq<T>, p: T -> bool): (n: nat)
    ensures n <= |xs|
  {
    if xs == [] then 0 else (if p(xs[0]) then 1 else 0) + Count(xs[1..], p)
  }

  lemma {:induction false} CountConcat<T>(xs: seq<T>, ys: seq<T>, p: T -> bool)
    ensures Count(xs + ys, p) == Count(xs, p) + Count(ys, p)
  {
    if xs == [] {
      assert xs + ys == ys;
    } else {
      assert (xs + ys)[1..] == xs[1..] + ys;
      CountConcat(xs[1..], ys, p);
    }
  }

  /** In a permutation the head of the one list can be taken out of the other. */
  lemma MatchHead<T>(xs: seq<T>, ys: seq<T>) returns (k: nat)
    requires xs != [] && multiset(xs) == multiset(ys)
    ensures k < |ys| && ys[k] == xs[0]
    ensures multiset(xs[1..]) == multiset(ys[..k] + ys[k + 1..])
  {
    assert xs[0] in multiset(ys);
    k :| 0 <= k < |ys| && ys[k] == xs[0];
    assert xs == [xs[0]] + xs[1..];
    assert ys == ys[..k] + [ys[k]] + ys[k + 1..];
    var rest, others := multiset(xs[1..]), multiset(ys[..k] + ys[k + 1..]);
    assert multiset(xs) == multiset{xs[0]} + rest;
    assert multiset(ys) == multiset{xs[0]} + others;
    assert rest == multiset(xs) - multiset{xs[0]} == others;
  }

  /** Counting does not see the order of a list. */
  lemma {:induction false} CountPermutation<T>(xs: seq<T>, ys: seq<T>, p: T -> bool)
    requires multiset(xs) == multiset(ys)
    ensures Count(xs, p) == Count(ys, p)
  {
    if xs == [] {
      assert |ys| == |multiset(ys)| == 0;
    } else {
      var k := MatchHead(xs, ys);
      var front, back := ys[..k], ys[k + 1..];
      CountPermutation(xs[1..], front + back, p);
      assert ys == front + ([ys[k]] + back);
      CountConcat(front, [ys[k]] + back, p);
      CountConcat(front, back, p);
      assert ([ys[k]] + back)[1..] == back;
    }
  }

  /** A pointwise implication between predicates is an inequality between counts. */
  lemma {:induction false} CountImplies<T>(xs: seq<T>, ys: seq<T>, p: T -> bool, q: T -> bool)
    requires |xs| == |ys|
    requires forall i :: 0 <= i < |xs| && p(xs[i]) ==> q(ys[i])
    ensures Count(xs, p) <= Count(ys, q)
  {
    if xs != [] {
      CountImplies(xs[1..], ys[1..], p, q);
    }
  }

  lemma CountAgrees<T>(xs: seq<T>, ys: seq<T>, p: T -> bool, q: T -> bool)
    requires |xs| == |ys|
    requires forall i :: 0 <= i < |xs| ==> p(xs[i]) == q(ys[i])
    ensures Count(xs, p) == Count(ys, q)
  {
    CountImplies(xs, ys, p, q);
    CountImplies(ys, xs, q, p);
  }

  /** Counting gives the size of the set of matching positions. */
  lemma {:induction false} CountsPositions<T>(xs: seq<T>, p: T -> bool, positions: set<int>)
    requires forall i :: i in positions <==> 0 <= i < |xs| && p(xs[i])
    ensures Count(xs, p) == |positions|
  {
    if xs == [] {
      assert forall i :: i !in positions;
    } else {
      var n := |xs| - 1;
      var front := xs[..n];
      CountsPositions(front, p, positions - {n});
      CountConcat(front, [xs[n]], p);
      assert xs == front + [xs[n]];
      assert [xs[n]][1..] == [];
    }
  }

  /** `some` by counting. */
  lemma {:induction false} CountPositive<T>(xs: seq<T>, p: T -> bool)
    ensures Count(xs, p) > 0 <==> exists i :: 0 <= i < |xs| && p(xs[i])
  {
    if xs != [] {
      CountPositive(xs[1..], p);
      if i :| 0 <= i < |xs| && p(xs[i]) {
        assert i > 0 ==> xs[1..][i - 1] == xs[i];
      }
      if j :| 0 <= j < |xs[1..]| && p(xs[1..][j]) {
        assert xs[j + 1] == xs[1..][j];
      }
    }
  }

  ghost predicate HasTwo<T>(xs: seq<T>, p: T -> bool) {
    exists i, j :: 0 <= i < j < |xs| && p(xs[i]) && p(xs[j])
  }

  lemma {:induction false} CountTwo<T>(xs: seq<T>, p: T -> bool)
    ensures Count(xs, p) >= 2 <==> HasTwo(xs, p)
  {
    if xs != [] {
      var rest := xs[1..];
      CountTwo(rest, p);
      CountPositive(rest, p);
      if i, j :| 0 <= i < j < |xs| && p(xs[i]) && p(xs[j]) {
        assert rest[j - 1] == xs[j];
        if i > 0 {
          assert rest[i - 1] == xs[i];
        }
      }
      if i, j :| 0 <= i < j < |rest| && p(rest[i]) && p(rest[j]) {
        assert xs[i + 1] == rest[i] && xs[j + 1] == rest[j];
      }
      if p(xs[0]) && Count(rest, p) > 0 {
        var j :| 0 <= j < |rest| && p(rest[j]);
        assert xs[j + 1] == rest[j];
      }
    }
  }

  /** `xs.find(p)`: the first entry with the property. */
  function Find<T>(xs: seq<T>, p: T -> bool): (r: Option<T>)
    ensures r.Some? ==> r.value in xs && p(r.value)
    ensures r.None? ==> forall x :: x in xs ==> !p(x)
  {
    if xs == [] then None else if p(xs[0]) then Some(xs[0]) else Find(xs[1..], p)
  }

  /** `xs.slice(0, limit)`. */
  function Limit<T>(xs: seq<T>, limit: nat): seq<T> {
    if |xs| <= limit then xs else xs[..limit]
  }

  /** Adding to a JavaScript `Set`: a value already present keeps its place. */
  function AddUnique<T(==)>(xs: seq<T>, x: T): seq<T> {
    if x in xs then xs else xs + [x]
  }

  /** `[...new Set(xs)]`. */
  function Unique<T(==)>(xs: seq<T>): seq<T> {
    if xs == [] then [] else AddUnique(Unique(xs[..|xs| - 1]), xs[|xs| - 1])
  }

  lemma UniqueSnoc<T>(xs: seq<T>, x: T)
    ensures Unique(xs + [x]) == AddUnique(Unique(xs), x)
  {
    assert (xs + [x])[..|xs|] == xs;
  }

  lemma {:induction false} UniqueKeeps<T>(xs: seq<T>, x: T)
    ensures x in Unique(xs) <==> x in xs
  {
    if xs != [] {
      UniqueKeeps(xs[..|xs| - 1], x);
      assert xs == xs[..|xs| - 1] + [xs[|xs| - 1]];
    }
  }

  /** The position at which a value first occurs. */
  function FirstIndex<T(==)>(xs: seq<T>, x: T): (i: nat)
    requires x in xs
    ensures i < |xs| && xs[i] == x
    ensures x !in xs[..i]
  {
    if xs[0] == x then 0 else 1 + FirstIndex(xs[1..], x)
  }

  ghost predicate InFirstOrder<T>(xs: seq<T>, picked: seq<T>) {
    && (forall i :: 0 <= i < |picked| ==> picked[i] in xs)
    && (forall i, j :: 0 <= i < j < |picked| ==> FirstIndex(xs, picked[i]) < FirstIndex(xs, picked[j]))
  }

  /** `Unique` keeps values of the list only, ordered by first occurrence, hence each once. */
  lemma {:induction false} UniqueOrdered<T>(xs: seq<T>)
    ensures InFirstOrder(xs, Unique(xs))
  {
    if xs != [] {
      var front, last := xs[..|xs| - 1], xs[|xs| - 1];
      var picked := Unique(front);
      UniqueOrdered(front);
      assert xs == front + [last];
      forall i | 0 <= i < |picked|
        ensures FirstIndex(xs, picked[i]) == FirstIndex(front, picked[i])
      {
        FirstIndexExtends(front, picked[i], last);
      }
      UniqueKeeps(front, last);
      if last !in picked {
        assert xs[FirstIndex(xs, last)] == last;
        assert FirstIndex(xs, last) == |front|;
      }
    }
  }

  lemma {:induction false} FirstIndexExtends<T>(xs: seq<T>, x: T, last: T)
    requires x in xs
    ensures FirstIndex(xs + [last], x) == FirstIndex(xs, x)
  {
    if xs[0] != x {
      assert (xs + [last])[1..] == xs[1..] + [last];
      FirstIndexExtends(xs[1..], x, last);
    }
  }

  /** A list without repetitions is already unique. */
  lemma {:induction false} UniqueFixed<T>(xs: seq<T>)
    requires forall i, j :: 0 <= i < j < |xs| ==> xs[i] != xs[j]
    ensures Unique(xs) == xs
  {
    if xs != [] {
      var front, last := xs[..|xs| - 1], xs[|xs| - 1];
      UniqueFixed(front);
      assert last !in front;
      assert xs == front + [last];
    }
  }

  lemma UniqueDistinct<T>(xs: seq<T>)
    ensures forall i, j :: 0 <= i < j < |Unique(xs)| ==> Unique(xs)[i] != Unique(xs)[j]
  {
    UniqueOrdered(xs);
    var picked := Unique(xs);
    assert forall i, j :: 0 <= i < j < |picked| ==> FirstIndex(xs, picked[i]) < FirstIndex(xs, picked[j]);
  }

  function When<T>(condition: bool, xs: seq<T>): seq<T> {
    if condition then xs else []
  }

  lemma WhenAdds<T>(xs: seq<T>, condition: bool, y: T, x: T)
    ensures x in xs + When(condition, [y]) <==> x in xs || (condition && x == y)
  {
  }

  lemma WhenAddsAll<T>(xs: seq<T>, condition: bool, ys: seq<T>, x: T)
    ensures x in xs + When(condition, ys) <==> x in xs || (condition && x in ys)
  {
  }

  /** Pushes values onto a list when a signal is present. */
  method PushIf<T>(list: seq<T>, signal: bool, more: seq<T>) returns (r: seq<T>)
    ensures r == list + When(signal, more)
  {
    r := list;
    if signal { r := r + more; }
  }

  /** Adds values to a JavaScript `Set` when a signal is present; `named` is everything added so
      far, repetitions included. */
  method AddIf<T(==)>(kept: seq<T>, ghost named: seq<T>, signal: bool, more: seq<T>)
    returns (r: seq<T>, ghost all: seq<T>)
    requires kept == Unique(named)
    ensures all == named + When(signal, more) && r == Unique(all)
  {
    r, all := kept, named;
    if signal {
      for i := 0 to |more|
        invariant all == named + more[..i] && r == Unique(all)
      {
        UniqueSnoc(all, more[i]);
        r, all := AddUnique(r, more[i]), all + [more[i]];
      }
    }
  }
}
