/** sort.SliceStable by a key. */
module Sorting {
  function Insert<T>(x: T, xs: seq<T>, key: T -> real): seq<T> {
    if xs == [] || key(x) <= key(xs[0]) then [x] + xs else [xs[0]] + Insert(x, xs[1..], key)
  }

  function StableSort<T>(xs: seq<T>, key: T -> real): seq<T> {
    if xs == [] then [] else Insert(xs[0], StableSort(xs[1..], key), key)
  }

  /** Smaller keys first, and equal keys in the given order. */
  ghost predicate Ordered<T(!new)>(xs: seq<T>, key: T -> real, before: (T, T) -> bool) {
    forall i, j | 0 <= i < j < |xs| ::
      key(xs[i]) < key(xs[j]) || (key(xs[i]) == key(xs[j]) && before(xs[i], xs[j]))
  }

  ghost predicate Listed<T(!new)>(xs: seq<T>, before: (T, T) -> bool) {
    forall i, j | 0 <= i < j < |xs| :: before(xs[i], xs[j])
  }

  /** An element after the first one is in its place. */
  lemma Later<T(!new)>(xs: seq<T>, y: T) returns (m: nat)
    requires xs != [] && y in xs[1..]
    ensures 0 < m < |xs| && xs[m] == y
  {
    var k :| 0 <= k < |xs[1..]| && xs[1..][k] == y;
    m := k + 1;
  }

  /** Putting x in front of what it precedes. */
  lemma ConsOrdered<T(!new)>(x: T, xs: seq<T>, key: T -> real, before: (T, T) -> bool)
    requires Ordered(xs, key, before)
    requires forall y | y in xs :: key(x) < key(y) || (key(x) == key(y) && before(x, y))
    ensures Ordered([x] + xs, key, before)
  {
    var all := [x] + xs;
    forall i, j | 0 <= i < j < |all|
      ensures key(all[i]) < key(all[j]) || (key(all[i]) == key(all[j]) && before(all[i], all[j]))
    {
      assert all[j] == xs[j - 1];
      if i == 0 { assert all[j] in xs; } else { assert all[i] == xs[i - 1]; }
    }
  }

  lemma {:induction false} InsertSpec<T(!new)>(x: T, xs: seq<T>, key: T -> real, before: (T, T) -> bool)
    requires Ordered(xs, key, before) && forall y | y in xs :: before(x, y)
    ensures Ordered(Insert(x, xs, key), key, before)
    ensures |Insert(x, xs, key)| == |xs| + 1
    ensures forall y :: y in Insert(x, xs, key) <==> y == x || y in xs
  {
    if xs == [] {
    } else if key(x) <= key(xs[0]) {
      forall y | y in xs ensures key(x) < key(y) || (key(x) == key(y) && before(x, y)) {
        if y != xs[0] {
          assert xs == [xs[0]] + xs[1..];
          var m := Later(xs, y);
        }
      }
      ConsOrdered(x, xs, key, before);
    } else {
      var rest := xs[1..];
      assert xs == [xs[0]] + rest;
      InsertSpec(x, rest, key, before);
      forall y | y in Insert(x, rest, key) ensures key(xs[0]) < key(y) || (key(xs[0]) == key(y) && before(xs[0], y)) {
        if y != x {
          assert y in rest;
          var m := Later(xs, y);
        }
      }
      ConsOrdered(xs[0], Insert(x, rest, key), key, before);
    }
  }

  /** The sort keeps the elements, orders them by key, and leaves equal keys as they were listed. */
  lemma {:induction false} StableSortSpec<T(!new)>(xs: seq<T>, key: T -> real, before: (T, T) -> bool)
    requires Listed(xs, before)
    ensures Ordered(StableSort(xs, key), key, before)
    ensures |StableSort(xs, key)| == |xs|
    ensures forall y :: y in StableSort(xs, key) <==> y in xs
  {
    if xs != [] {
      var rest := xs[1..];
      assert xs == [xs[0]] + rest;
      StableSortSpec(rest, key, before);
      forall y | y in StableSort(rest, key) ensures before(xs[0], y) {
        assert y in rest;
        var m := Later(xs, y);
      }
      InsertSpec(xs[0], StableSort(rest, key), key, before);
    }
  }

  lemma {:induction false} InsertPermutes<T>(x: T, xs: seq<T>, key: T -> real)
    ensures multiset(Insert(x, xs, key)) == multiset{x} + multiset(xs)
  {
    if xs != [] && !(key(x) <= key(xs[0])) {
      InsertPermutes(x, xs[1..], key);
      assert xs == [xs[0]] + xs[1..];
    }
  }

  /** The sort repeats and drops nothing. */
  lemma {:induction false} StableSortPermutes<T>(xs: seq<T>, key: T -> real)
    ensures multiset(StableSort(xs, key)) == multiset(xs)
  {
    if xs != [] {
      StableSortPermutes(xs[1..], key);
      InsertPermutes(xs[0], StableSort(xs[1..], key), key);
      assert xs == [xs[0]] + xs[1..];
    }
  }
}
