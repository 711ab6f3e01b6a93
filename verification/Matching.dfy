/** Greedy matching of two event lists, best pairs first: the algorithm behind the creep deaths (main.go, campKills) and
    the assist events (main.go, assistEventsFromScoreboard). A smaller score is a better pair. */
module Matching {
  import opened Sorting
  import opened Wrappers

  datatype Pair = Pair(left: nat, right: nat, score: real)

  /** The right partner of each left element. */
  type Partners = seq<Option<nat>>

  function ScoreOf(p: Pair): real {
    p.score
  }

  function SortByScore(ps: seq<Pair>): seq<Pair> {
    StableSort(ps, ScoreOf)
  }

  ghost predicate Ordered(ps: seq<Pair>) {
    forall i, j | 0 <= i < j < |ps| :: ps[i].score <= ps[j].score
  }

  lemma SortSpec(ps: seq<Pair>)
    ensures Ordered(SortByScore(ps)) && |SortByScore(ps)| == |ps|
    ensures forall q :: q in SortByScore(ps) <==> q in ps
  {
    hide StableSort;
    StableSortSpec(ps, ScoreOf, (_, _) => true);
    var sorted := SortByScore(ps);
    forall i, j | 0 <= i < j < |sorted| ensures sorted[i].score <= sorted[j].score {
      assert ScoreOf(sorted[i]) <= ScoreOf(sorted[j]);
    }
  }

  // ---- the matching

  ghost predicate Taken(partner: Partners, p: Pair) {
    p.left < |partner| && partner[p.left] == Some(p.right)
  }

  /** Only pairs of the list are matched, and no right element twice. */
  ghost predicate IsMatching(ps: seq<Pair>, partner: Partners) {
    && (forall l | 0 <= l < |partner| && partner[l].Some? :: exists p ::
       p in ps && p.left == l && p.right == partner[l].value)
    && (forall l, m | 0 <= l < m < |partner| && partner[l].Some? :: partner[m] != partner[l])
  }

  /** No pair would rather be taken: it is, or a pair at least as good took one of its ends. */
  ghost predicate NotBlocked(ps: seq<Pair>, partner: Partners, p: Pair) {
    exists q :: q in ps && Taken(partner, q) && (q.left == p.left || q.right == p.right) && q.score <= p.score
  }

  ghost predicate NoBlockingPair(ps: seq<Pair>, partner: Partners) {
    forall p | p in ps :: NotBlocked(ps, partner, p)
  }

  /** The k-th pair is taken, or an earlier one took one of its ends. */
  ghost predicate Settled(sorted: seq<Pair>, partner: Partners, k: nat, q: nat)
    requires k < |sorted|
  {
    q <= k && Taken(partner, sorted[q]) && (sorted[q].left == sorted[k].left || sorted[q].right == sorted[k].right)
  }

  /** Takes the pairs in their order; a pair is passed over when one of its ends is taken. from[l] are the
      pairs that took l and r, and why[k] the one that settled pair k. */
  method TakeInOrder(sorted: seq<Pair>, lefts: nat, rights: nat)
    returns (partner: Partners, ghost from: seq<nat>, ghost why: seq<nat>)
    requires forall p | p in sorted :: p.left < lefts && p.right < rights
    ensures |partner| == |from| == lefts && |why| == |sorted|
    ensures forall l | 0 <= l < lefts && partner[l].Some? ::
              from[l] < |sorted| && sorted[from[l]].left == l && partner[l] == Some(sorted[from[l]].right)
    ensures forall l, m | 0 <= l < m < lefts && partner[l].Some? :: partner[m] != partner[l]
    ensures forall k | 0 <= k < |sorted| :: Settled(sorted, partner, k, why[k])
  {
    partner := seq(lefts, _ => None);
    var used := seq(rights, _ => false);
    from := seq(lefts, _ => 0);
    why := [];
    ghost var taker: seq<nat> := seq(rights, _ => 0);
    for i := 0 to |sorted|
      invariant |partner| == |from| == lefts && |used| == |taker| == rights && |why| == i
      invariant forall l | 0 <= l < lefts && partner[l].Some? ::
                  && from[l] < i && sorted[from[l]].left == l && partner[l] == Some(sorted[from[l]].right)
                  && partner[l].value < rights && used[partner[l].value]
      invariant forall r | 0 <= r < rights && used[r] ::
                  taker[r] < i && sorted[taker[r]].right == r && Taken(partner, sorted[taker[r]])
      invariant forall l, m | 0 <= l < m < lefts && partner[l].Some? :: partner[m] != partner[l]
      invariant forall k | 0 <= k < i :: Settled(sorted, partner, k, why[k])
    {
      var p := sorted[i];
      assert p in sorted;
      if used[p.right] {
        why := why + [taker[p.right]];
      } else if partner[p.left] != None {
        why := why + [from[p.left]];
      } else {
        used := used[p.right := true];
        ghost var before := partner;
        partner := partner[p.left := Some(p.right)];
        from := from[p.left := i];
        taker := taker[p.right := i];
        why := why + [i];
        forall k | 0 <= k < i ensures Settled(sorted, partner, k, why[k]) {
          assert Settled(sorted, before, k, why[k]);
        }
      }
    }
  }

  /** The pairs sorted by score, the best ones first. */
  method TakeBestFirst(ps: seq<Pair>, lefts: nat, rights: nat) returns (partner: Partners)
    requires forall p | p in ps :: p.left < lefts && p.right < rights
    ensures |partner| == lefts
    ensures IsMatching(ps, partner) && NoBlockingPair(ps, partner)
    ensures forall l | 0 <= l < lefts && partner[l].Some? :: partner[l].value < rights
  {
    hide SortByScore, Ordered, Settled, NotBlocked;
    var sorted := SortByScore(ps);
    SortSpec(ps);
    ghost var from, why;
    partner, from, why := TakeInOrder(sorted, lefts, rights);
    forall p | p in ps ensures NotBlocked(ps, partner, p) {
      var k := IndexOf(sorted, p);
      Excused(ps, sorted, partner, k, why[k]);
    }
    forall l | 0 <= l < lefts && partner[l].Some?
      ensures exists p :: p in ps && p.left == l && p.right == partner[l].value
      ensures partner[l].value < rights
    {
      assert sorted[from[l]] in sorted;
    }
  }

  lemma Excused(ps: seq<Pair>, sorted: seq<Pair>, partner: Partners, k: nat, q: nat)
    requires Ordered(sorted) && k < |sorted| && Settled(sorted, partner, k, q)
    requires forall p :: p in sorted <==> p in ps
    ensures NotBlocked(ps, partner, sorted[k])
  {
    assert sorted[q] in sorted;
  }

  ghost predicate DistinctScores(ps: seq<Pair>) {
    forall p, q | p in ps && q in ps && p.score == q.score :: p == q
  }

  /** With different scores there is only one matching without a blocking pair: the outcome does not depend on the
      order in which the pairs were listed, nor on how the matching was computed. */
  lemma StableIsUnique(ps: seq<Pair>, a: Partners, b: Partners)
    requires DistinctScores(ps) && |a| == |b|
    requires IsMatching(ps, a) && NoBlockingPair(ps, a)
    requires IsMatching(ps, b) && NoBlockingPair(ps, b)
    ensures a == b
  {
    hide DistinctScores, Ordered, NoBlockingPair, SortByScore, IsMatching;
    SortSpec(ps);
    var sorted := SortByScore(ps);
    SameTaken(ps, sorted, a, b, |sorted|);
    forall l | 0 <= l < |a| ensures a[l] == b[l] {
      if a[l].Some? {
        var p := PairOf(ps, a, l);
        Members(ps, sorted, p);
        InSorted(sorted, p, a, b);
      } else if b[l].Some? {
        var p := PairOf(ps, b, l);
        Members(ps, sorted, p);
        InSorted(sorted, p, b, a);
      }
    }
  }

  lemma PairOf(ps: seq<Pair>, a: Partners, l: nat) returns (p: Pair)
    requires IsMatching(ps, a) && l < |a| && a[l].Some?
    ensures p in ps && p.left == l && p.right == a[l].value && Taken(a, p)
  {
    p :| p in ps && p.left == l && p.right == a[l].value;
  }

  lemma NoneTwice(ps: seq<Pair>, partner: Partners)
    requires IsMatching(ps, partner)
    ensures forall l, m | 0 <= l < m < |partner| && partner[l].Some? :: partner[m] != partner[l]
  {
  }

  lemma InSorted(sorted: seq<Pair>, p: Pair, a: Partners, b: Partners)
    requires p in sorted && forall k | 0 <= k < |sorted| :: Taken(a, sorted[k]) <==> Taken(b, sorted[k])
    ensures Taken(a, p) <==> Taken(b, p)
  {
  }

  /** Pair by pair, from the best on: both matchings decide alike. */
  lemma {:induction false} SameTaken(ps: seq<Pair>, sorted: seq<Pair>, a: Partners, b: Partners, n: nat)
    requires DistinctScores(ps) && Ordered(sorted) && n <= |sorted| && SameMembers(ps, sorted)
    requires IsMatching(ps, a) && NoBlockingPair(ps, a)
    requires IsMatching(ps, b) && NoBlockingPair(ps, b)
    ensures forall k | 0 <= k < n :: Taken(a, sorted[k]) <==> Taken(b, sorted[k])
  {
    hide DistinctScores, Ordered, IsMatching, NoBlockingPair, Taken;
    if n > 0 {
      SameTaken(ps, sorted, a, b, n - 1);
      if Taken(a, sorted[n - 1]) { AlsoTaken(ps, sorted, n - 1, a, b); }
      if Taken(b, sorted[n - 1]) { AlsoTaken(ps, sorted, n - 1, b, a); }
    }
  }

  lemma AlsoTaken(ps: seq<Pair>, sorted: seq<Pair>, i: nat, a: Partners, b: Partners)
    requires DistinctScores(ps) && Ordered(sorted) && i < |sorted| && SameMembers(ps, sorted)
    requires IsMatching(ps, a) && NoBlockingPair(ps, b) && Taken(a, sorted[i])
    requires forall k | 0 <= k < i :: Taken(a, sorted[k]) <==> Taken(b, sorted[k])
    ensures Taken(b, sorted[i])
  {
    hide IsMatching, NoBlockingPair, SameMembers, DistinctScores, Taken, Ordered;
    var p := sorted[i];
    Members(ps, sorted, p);
    var q := Better(ps, b, p);
    Members(ps, sorted, q);
    var k := IndexOf(sorted, q);
    if k < i {
      assert Taken(a, sorted[k]);
      OneEnd(ps, a, p, q);
      SameEnds(b, p, q);
    } else {
      NotBetter(sorted, i, k);
      SameScore(ps, p, q);
    }
  }

  lemma Better(ps: seq<Pair>, b: Partners, p: Pair) returns (q: Pair)
    requires NoBlockingPair(ps, b) && p in ps
    ensures q in ps && Taken(b, q) && (q.left == p.left || q.right == p.right) && q.score <= p.score
  {
    assert NotBlocked(ps, b, p);
    q :| q in ps && Taken(b, q) && (q.left == p.left || q.right == p.right) && q.score <= p.score;
  }

  lemma IndexOf(ps: seq<Pair>, q: Pair) returns (k: nat)
    requires q in ps
    ensures k < |ps| && ps[k] == q
  {
    k :| 0 <= k < |ps| && ps[k] == q;
  }

  lemma SameEnds(b: Partners, p: Pair, q: Pair)
    requires Taken(b, q) && q.left == p.left && q.right == p.right
    ensures Taken(b, p)
  {
  }

  lemma NotBetter(sorted: seq<Pair>, i: nat, k: nat)
    requires Ordered(sorted) && i <= k < |sorted|
    ensures sorted[i].score <= sorted[k].score
  {
  }

  ghost predicate SameMembers(ps: seq<Pair>, qs: seq<Pair>) {
    forall p :: p in ps <==> p in qs
  }

  lemma Members(ps: seq<Pair>, qs: seq<Pair>, p: Pair)
    requires SameMembers(ps, qs)
    ensures p in ps <==> p in qs
  {
  }

  lemma SameScore(ps: seq<Pair>, p: Pair, q: Pair)
    requires DistinctScores(ps) && p in ps && q in ps && p.score == q.score
    ensures p == q
  {
  }

  /** Two taken pairs that share an end are the same ends. */
  lemma OneEnd(ps: seq<Pair>, a: Partners, p: Pair, q: Pair)
    requires IsMatching(ps, a) && Taken(a, p) && Taken(a, q) && (q.left == p.left || q.right == p.right)
    ensures q.left == p.left && q.right == p.right
  {
  }
}
