/** Camp creep deaths joined to the combat log, and the neutral gold split over them (main.go, campKills). */
module CampKills {
  import opened Matching
  import opened Sets
  import opened Wrappers

  /** A neutral creep of a camp; 0.0 is "never". The species is the one the replay's name table gives. */
  datatype Life = Life(camp: nat, species: string, woke: real, died: real, killed: real, kx: real, ky: real,
      summoned: bool)

  /** A neutral's death in the combat log; owner -1: no player's unit landed it. */
  datatype Death = Death(t: real, species: string, owner: int, hx: real, hy: real)

  /** The gold paid to one player in one tick. */
  datatype Gold = Gold(t: real, player: int, gold: int)

  /** A creep's death as the combat log tells it; owner -2: no death of that tick matched. */
  datatype Kill = Kill(owner: int, t: real, gold: int)

  datatype Key = Key(player: int, t: real)

  const SAME_TICK := 0.05
  const ENTITY_DEATH_LAG := 0.3

  function Abs(x: real): real {
    if x < 0.0 then -x else x
  }

  predicate Dies(l: Life) {
    l.killed > 0.0 && !l.summoned
  }

  /** Close enough in time to be the same death. */
  predicate InWindow(l: Life, d: Death) {
    Dies(l) && l.killed - ENTITY_DEATH_LAG <= d.t <= l.killed + SAME_TICK
  }

  /** How badly creep and death fit. */
  function Score(l: Life, d: Death, hypot: (real, real) -> real): real {
    var near := if d.owner >= 0 && (d.hx > 0.0 || d.hy > 0.0) && (l.kx > 0.0 || l.ky > 0.0)
                then hypot(d.hx - l.kx, d.hy - l.ky) else 50.0;
    var other := if l.species != "" && d.species != l.species then 1000.0 else 0.0;
    near + other + 10.0 * Abs(l.killed - d.t)
  }

  /** The combat log lists deaths as time passes, and writes an owner down as a player or -1. */
  ghost predicate Logged(deaths: seq<Death>) {
    && (forall i, j | 0 <= i < j < |deaths| :: deaths[i].t <= deaths[j].t)
    && (forall j | 0 <= j < |deaths| :: deaths[j].owner >= -1)
  }

  // ---- the candidate pairs

  ghost predicate Candidate(lives: seq<Life>, deaths: seq<Death>, hypot: (real, real) -> real, p: Pair) {
    && p.left < |lives| && p.right < |deaths| && InWindow(lives[p.left], deaths[p.right])
    && p.score == Score(lives[p.left], deaths[p.right], hypot)
  }

  /** sort.Search: the first death not before t. */
  method FirstFrom(deaths: seq<Death>, t: real) returns (lo: nat)
    requires Logged(deaths)
    ensures lo <= |deaths|
    ensures forall j | 0 <= j < lo :: deaths[j].t < t
    ensures forall j | lo <= j < |deaths| :: deaths[j].t >= t
  {
    lo := 0;
    var hi := |deaths|;
    while lo < hi
      invariant lo <= hi <= |deaths|
      invariant forall j | 0 <= j < lo :: deaths[j].t < t
      invariant forall j | hi <= j < |deaths| :: deaths[j].t >= t
    {
      var mid := (lo + hi) / 2;
      if deaths[mid].t < t { lo := mid + 1; } else { hi := mid; }
    }
  }

  method Candidates(lives: seq<Life>, deaths: seq<Death>, hypot: (real, real) -> real) returns (pairs: seq<Pair>)
    requires Logged(deaths)
    ensures forall p :: p in pairs <==> Candidate(lives, deaths, hypot, p)
  {
    pairs := [];
    for li := 0 to |lives|
      invariant forall p :: p in pairs <==> Candidate(lives, deaths, hypot, p) && p.left < li
    {
      var l := lives[li];
      if Dies(l) {
        var j := FirstFrom(deaths, l.killed - ENTITY_DEATH_LAG);
        ghost var lo := j;
        ghost var before := pairs;
        while j < |deaths| && deaths[j].t <= l.killed + SAME_TICK
          invariant lo <= j <= |deaths|
          invariant forall k | lo <= k < j :: InWindow(l, deaths[k])
          invariant forall p :: p in pairs <==>
                    p in before || (Candidate(lives, deaths, hypot, p) && p.left == li && p.right < j)
        {
          pairs := pairs + [Pair(li, j, Score(l, deaths[j], hypot))];
          j := j + 1;
        }
      }
    }
  }

  // ---- the join

  /** Creep l's death is the logged death j. */
  ghost predicate Joined(partner: Partners, l: nat, j: nat) {
    l < |partner| && partner[l] == Some(j)
  }

  /** Every creep gets at most one death and every death at most one creep, within the window. */
  ghost predicate IsJoin(lives: seq<Life>, deaths: seq<Death>, partner: Partners) {
    && |partner| == |lives|
    && (forall l: nat, j: nat | Joined(partner, l, j) :: j < |deaths| && InWindow(lives[l], deaths[j]))
    && (forall l, m | 0 <= l < m < |partner| && partner[l].Some? :: partner[m] != partner[l])
  }

  /** Creep and death are joined, or one of them went to a partner that fits at least as well. */
  ghost predicate Content(lives: seq<Life>, deaths: seq<Death>, hypot: (real, real) -> real, partner: Partners, l: nat,
                          j: nat)
    requires IsJoin(lives, deaths, partner) && l < |lives| && j < |deaths|
  {
    exists m: nat, k: nat :: Joined(partner, m, k) && (m == l || k == j)
                   && Score(lives[m], deaths[k], hypot) <= Score(lives[l], deaths[j], hypot)
  }

  method Join(lives: seq<Life>, deaths: seq<Death>, hypot: (real, real) -> real) returns (partner: Partners)
    requires Logged(deaths)
    ensures IsJoin(lives, deaths, partner)
    ensures forall l, j | 0 <= l < |lives| && 0 <= j < |deaths| && InWindow(lives[l], deaths[j]) ::
              Content(lives, deaths, hypot, partner, l, j)
  {
    hide Logged, Score, InWindow;
    var pairs := Candidates(lives, deaths, hypot);
    partner := TakeBestFirst(pairs, |lives|, |deaths|);
    MatchedIsJoined(lives, deaths, hypot, pairs, partner);
  }

  lemma MatchedIsJoined(lives: seq<Life>, deaths: seq<Death>, hypot: (real, real) -> real, pairs: seq<Pair>,
                        partner: Partners)
    requires forall p :: p in pairs <==> Candidate(lives, deaths, hypot, p)
    requires |partner| == |lives| && IsMatching(pairs, partner) && NoBlockingPair(pairs, partner)
    ensures IsJoin(lives, deaths, partner)
    ensures forall l, j | 0 <= l < |lives| && 0 <= j < |deaths| && InWindow(lives[l], deaths[j]) ::
              Content(lives, deaths, hypot, partner, l, j)
  {
    hide InWindow, Content, Score, NoBlockingPair, IsMatching;
    forall l: nat, j: nat | Joined(partner, l, j) ensures j < |deaths| && InWindow(lives[l], deaths[j]) {
      var p := PairOf(pairs, partner, l);
      assert Candidate(lives, deaths, hypot, p);
    }
    NoneTwice(pairs, partner);
    forall l, j | 0 <= l < |lives| && 0 <= j < |deaths| && InWindow(lives[l], deaths[j])
      ensures Content(lives, deaths, hypot, partner, l, j)
    {
      IsContent(lives, deaths, hypot, pairs, partner, l, j);
    }
  }

  lemma IsContent(lives: seq<Life>, deaths: seq<Death>, hypot: (real, real) -> real, pairs: seq<Pair>,
                  partner: Partners, l: nat, j: nat)
    requires forall p :: p in pairs <==> Candidate(lives, deaths, hypot, p)
    requires IsJoin(lives, deaths, partner) && NoBlockingPair(pairs, partner)
    requires l < |lives| && j < |deaths| && InWindow(lives[l], deaths[j])
    ensures Content(lives, deaths, hypot, partner, l, j)
  {
    hide InWindow, Score, NoBlockingPair, IsJoin;
    var p := Pair(l, j, Score(lives[l], deaths[j], hypot));
    assert Candidate(lives, deaths, hypot, p);
    var q := Better(pairs, partner, p);
    assert Candidate(lives, deaths, hypot, q);
    assert Joined(partner, q.left, q.right);
  }

  // ---- the gold

  /** Go's integer division. */
  function Quot(a: int, n: int): int
    requires n > 0
  {
    if a >= 0 then a / n else -((-a) / n)
  }

  function Rem(a: int, n: int): int
    requires n > 0
  {
    a - n * Quot(a, n)
  }

  /** What a player was paid in a tick. */
  function Paid(golds: seq<Gold>, k: Key): int {
    if golds == [] then 0
    else
      var g := golds[|golds| - 1];
      Paid(golds[..|golds| - 1], k) + if Key(g.player, g.t) == k then g.gold else 0
  }

  /** How many neutrals he killed in it. */
  function Count(deaths: seq<Death>, k: Key): nat {
    if deaths == [] then 0
    else
      var d := deaths[|deaths| - 1];
      Count(deaths[..|deaths| - 1], k) + if Key(d.owner, d.t) == k then 1 else 0
  }

  /** A creep's key, when a player killed it. */
  function KeyOf(deaths: seq<Death>, partner: Partners, l: nat): Option<Key>
    requires l < |partner| && (partner[l].Some? ==> partner[l].value < |deaths|)
  {
    if partner[l].Some? && deaths[partner[l].value].owner >= 0
    then Some(Key(deaths[partner[l].value].owner, deaths[partner[l].value].t)) else None
  }

  ghost predicate Valid(deaths: seq<Death>, partner: Partners) {
    forall l | 0 <= l < |partner| && partner[l].Some? :: partner[l].value < |deaths|
  }

  /** The earliest creep of its key: it takes the remainder. */
  predicate FirstOfKey(deaths: seq<Death>, partner: Partners, l: nat)
    requires Valid(deaths, partner) && l < |partner|
  {
    KeyOf(deaths, partner, l).Some? && forall m | 0 <= m < l :: KeyOf(deaths, partner, m) != KeyOf(deaths, partner, l)
  }

  function Share(deaths: seq<Death>, golds: seq<Gold>, partner: Partners, l: nat): int
    requires Valid(deaths, partner) && l < |partner|
  {
    var k := KeyOf(deaths, partner, l);
    if k == None || Count(deaths, k.value) == 0 then 0
    else
      Quot(Paid(golds, k.value), Count(deaths, k.value))
      + if FirstOfKey(deaths, partner, l) then Rem(Paid(golds, k.value), Count(deaths, k.value)) else 0
  }

  function KillOf(deaths: seq<Death>, golds: seq<Gold>, partner: Partners, l: nat): Kill
    requires Valid(deaths, partner) && l < |partner|
  {
    if partner[l] == None then Kill(-2, 0.0, 0)
    else Kill(deaths[partner[l].value].owner, deaths[partner[l].value].t, Share(deaths, golds, partner, l))
  }

  method SumPaid(golds: seq<Gold>) returns (paid: map<Key, int>)
    ensures forall k :: Paid(golds, k) == if k in paid then paid[k] else 0
  {
    paid := map[];
    for i := 0 to |golds|
      invariant forall k :: Paid(golds[..i], k) == if k in paid then paid[k] else 0
    {
      var k := Key(golds[i].player, golds[i].t);
      assert golds[..i + 1][..i] == golds[..i];
      paid := paid[k := (if k in paid then paid[k] else 0) + golds[i].gold];
    }
    assert golds[..|golds|] == golds;
  }

  method CountDeaths(deaths: seq<Death>) returns (count: map<Key, nat>)
    ensures forall k: Key | k.player >= 0 :: Count(deaths, k) == if k in count then count[k] else 0
  {
    count := map[];
    for i := 0 to |deaths|
      invariant forall k: Key | k.player >= 0 :: Count(deaths[..i], k) == if k in count then count[k] else 0
    {
      var k := Key(deaths[i].owner, deaths[i].t);
      assert deaths[..i + 1][..i] == deaths[..i];
      if deaths[i].owner >= 0 {
        count := count[k := (if k in count then count[k] else 0) + 1];
      }
    }
    assert deaths[..|deaths|] == deaths;
  }

  method CampKills(lives: seq<Life>, deaths: seq<Death>, golds: seq<Gold>, hypot: (real, real) -> real)
    returns (out: seq<Kill>, partner: Partners)
    requires Logged(deaths)
    ensures IsJoin(lives, deaths, partner) && Valid(deaths, partner) && |out| == |lives|
    ensures forall l, j | 0 <= l < |lives| && 0 <= j < |deaths| && InWindow(lives[l], deaths[j]) ::
              Content(lives, deaths, hypot, partner, l, j)
    ensures forall l | 0 <= l < |lives| :: out[l] == KillOf(deaths, golds, partner, l)
  {
    hide InWindow, Content, Paid, Count, Quot, Rem, Logged;
    partner := Join(lives, deaths, hypot);
    forall l | 0 <= l < |partner| && partner[l].Some? ensures partner[l].value < |deaths| {
      assert Joined(partner, l, partner[l].value);
    }
    var paid := SumPaid(golds);
    var count := CountDeaths(deaths);
    var first: set<Key> := {};
    out := [];
    for li := 0 to |lives|
      invariant |out| == li
      invariant forall k :: k in first ==> exists m :: 0 <= m < li && KeyOf(deaths, partner, m) == Some(k)
      invariant forall m | 0 <= m < li && KeyOf(deaths, partner, m).Some?
                && Count(deaths, KeyOf(deaths, partner, m).value) > 0 ::
                  KeyOf(deaths, partner, m).value in first
      invariant forall l | 0 <= l < li :: out[l] == KillOf(deaths, golds, partner, l)
    {
      var kill := Kill(-2, 0.0, 0);
      if partner[li] != None {
        var d := deaths[partner[li].value];
        kill := Kill(d.owner, d.t, 0);
        if d.owner >= 0 {
          var k := Key(d.owner, d.t);
          assert KeyOf(deaths, partner, li) == Some(k);
          var n := if k in count then count[k] else 0;
          if n > 0 {
            var gold := if k in paid then paid[k] else 0;
            kill := kill.(gold := Quot(gold, n));
            if k !in first {
              first := first + {k};
              kill := kill.(gold := kill.gold + Rem(gold, n));
            }
          }
        }
      }
      out := out + [kill];
    }
  }

  // ---- conservation

  /** The shares of one key over the first n creeps. */
  ghost function Shares(deaths: seq<Death>, golds: seq<Gold>, partner: Partners, k: Key, n: nat): int
    requires Valid(deaths, partner) && n <= |partner|
  {
    if n == 0 then 0
    else
      Shares(deaths, golds, partner, k, n - 1)
      + if KeyOf(deaths, partner, n - 1) == Some(k) then Share(deaths, golds, partner, n - 1) else 0
  }

  /** The deaths of one key that the first n creeps are joined to. */
  ghost function Matched(deaths: seq<Death>, partner: Partners, k: Key, n: nat): set<nat>
    requires Valid(deaths, partner) && n <= |partner|
  {
    set l | 0 <= l < n && KeyOf(deaths, partner, l) == Some(k) :: partner[l].value
  }

  ghost function Of(deaths: seq<Death>, k: Key): set<nat> {
    set j | 0 <= j < |deaths| && Key(deaths[j].owner, deaths[j].t) == k
  }

  lemma {:induction false} CountIsSize(deaths: seq<Death>, k: Key)
    ensures Count(deaths, k) == |Of(deaths, k)|
  {
    if deaths != [] {
      var n := |deaths| - 1;
      var shorter := deaths[..n];
      CountIsSize(shorter, k);
      assert forall j | 0 <= j < n :: shorter[j] == deaths[j];
      if Key(deaths[n].owner, deaths[n].t) == k {
        assert Of(deaths, k) == Of(shorter, k) + {n};
      } else {
        assert Of(deaths, k) == Of(shorter, k);
      }
    }
  }

  /** The matched deaths grow by one with each matched creep. */
  lemma MatchedStep(deaths: seq<Death>, partner: Partners, k: Key, n: nat)
    requires Valid(deaths, partner) && n < |partner|
    requires forall l, m | 0 <= l < m < |partner| && partner[l].Some? :: partner[m] != partner[l]
    ensures KeyOf(deaths, partner, n) != Some(k) ==>
            Matched(deaths, partner, k, n + 1) == Matched(deaths, partner, k, n)
    ensures KeyOf(deaths, partner, n) == Some(k) ==>
            |Matched(deaths, partner, k, n + 1)| == |Matched(deaths, partner, k, n)| + 1
    ensures KeyOf(deaths, partner, n) == Some(k) ==>
            (FirstOfKey(deaths, partner, n) <==> Matched(deaths, partner, k, n) == {})
  {
    if KeyOf(deaths, partner, n) == Some(k) {
      var j := partner[n].value;
      assert Matched(deaths, partner, k, n + 1) == Matched(deaths, partner, k, n) + {j};
      assert j !in Matched(deaths, partner, k, n);
      if !FirstOfKey(deaths, partner, n) {
        var m :| 0 <= m < n && KeyOf(deaths, partner, m) == Some(k);
        assert partner[m].value in Matched(deaths, partner, k, n);
      }
      if Matched(deaths, partner, k, n) != {} {
        var x :| x in Matched(deaths, partner, k, n);
      }
    } else {
      assert Matched(deaths, partner, k, n + 1) == Matched(deaths, partner, k, n);
    }
  }

  lemma {:induction false} SharesOfMatched(deaths: seq<Death>, golds: seq<Gold>, partner: Partners, k: Key, n: nat)
    requires Valid(deaths, partner) && n <= |partner| && Count(deaths, k) > 0
    requires forall l, m | 0 <= l < m < |partner| && partner[l].Some? :: partner[m] != partner[l]
    ensures var c := |Matched(deaths, partner, k, n)|;
            var quot := Quot(Paid(golds, k), Count(deaths, k));
            Shares(deaths, golds, partner, k, n) == c * quot + if c > 0 then Rem(Paid(golds, k), Count(deaths, k))
                else 0
  {
    hide Quot, Rem, Paid, Count, KeyOf, FirstOfKey, Valid;
    if n == 0 {
      assert Matched(deaths, partner, k, 0) == {};
    } else {
      SharesOfMatched(deaths, golds, partner, k, n - 1);
      MatchedStep(deaths, partner, k, n - 1);
      Times(|Matched(deaths, partner, k, n - 1)|, Quot(Paid(golds, k), Count(deaths, k)));
    }
  }

  lemma Times(c: nat, quot: int)
    ensures (c + 1) * quot == c * quot + quot
    ensures c == 0 ==> c * quot == 0
  {
  }

  /** What the creeps killed by one player in one tick are worth together: all he was paid, less an even share for
      each of his deaths of the tick that no creep matched; so exactly the gold when all are matched, and never
      more than a payment that is not negative. */
  lemma GoldIsSplit(lives: seq<Life>, deaths: seq<Death>, golds: seq<Gold>, partner: Partners, k: Key)
    requires IsJoin(lives, deaths, partner) && Valid(deaths, partner) && k.player >= 0
    ensures var c := |Matched(deaths, partner, k, |partner|)|;
            var n := Count(deaths, k);
            var paid := Paid(golds, k);
            && c <= n
            && (c == 0 ==> Shares(deaths, golds, partner, k, |partner|) == 0)
            && (c > 0 ==> Shares(deaths, golds, partner, k, |partner|) == paid - (n - c) * Quot(paid, n))
            && (c > 0 && c == n ==> Shares(deaths, golds, partner, k, |partner|) == paid)
            && (paid >= 0 ==> 0 <= Shares(deaths, golds, partner, k, |partner|) <= paid)
  {
    hide Quot, Rem, Paid, Count, Shares, InWindow;
    var all := |partner|;
    var matched := Matched(deaths, partner, k, all);
    CountIsSize(deaths, k);
    assert matched <= Of(deaths, k);
    SubsetSize(matched, Of(deaths, k));
    if Count(deaths, k) > 0 {
      SharesOfMatched(deaths, golds, partner, k, all);
      Split(Paid(golds, k), Count(deaths, k), |matched|);
    } else {
      assert matched == {};
      NoShares(deaths, golds, partner, k, all);
    }
  }

  lemma KeyedIsMatched(deaths: seq<Death>, partner: Partners, k: Key, l: nat, n: nat)
    requires Valid(deaths, partner) && l < n <= |partner| && KeyOf(deaths, partner, l) == Some(k)
    ensures Matched(deaths, partner, k, n) != {}
  {
    assert partner[l].value in Matched(deaths, partner, k, n);
  }

  lemma {:induction false} NoShares(deaths: seq<Death>, golds: seq<Gold>, partner: Partners, k: Key, n: nat)
    requires Valid(deaths, partner) && n <= |partner| && Matched(deaths, partner, k, n) == {}
    ensures Shares(deaths, golds, partner, k, n) == 0
  {
    hide Share;
    if n > 0 {
      assert Matched(deaths, partner, k, n - 1) <= Matched(deaths, partner, k, n);
      NoShares(deaths, golds, partner, k, n - 1);
      if KeyOf(deaths, partner, n - 1) == Some(k) {
        KeyedIsMatched(deaths, partner, k, n - 1, n);
      }
    }
  }

  lemma Split(paid: int, n: nat, c: nat)
    requires c <= n && n > 0
    ensures c * Quot(paid, n) + Rem(paid, n) == paid - (n - c) * Quot(paid, n)
    ensures paid >= 0 ==> 0 <= (n - c) * Quot(paid, n) <= paid
  {
    var quot := Quot(paid, n);
    assert (n - c) * quot == n * quot - c * quot;
    if paid >= 0 {
      assert 0 <= quot && n * quot <= paid;
      Monotone(n - c, n, quot);
    }
  }

  lemma Monotone(a: nat, b: nat, quot: nat)
    requires a <= b
    ensures 0 <= a * quot <= b * quot
  {
  }

  // ---- over all ticks

  /** What a player was paid in all. */
  ghost function PaidTo(golds: seq<Gold>, p: int): int {
    if golds == [] then 0
    else
      var g := golds[|golds| - 1];
      PaidTo(golds[..|golds| - 1], p) + if g.player == p then g.gold else 0
  }

  /** ... and at some times. */
  ghost function PaidAt(golds: seq<Gold>, p: int, times: set<real>): int {
    if golds == [] then 0
    else
      var g := golds[|golds| - 1];
      PaidAt(golds[..|golds| - 1], p, times) + if g.player == p && g.t in times then g.gold else 0
  }

  /** The gold of player p's kills among the first n creeps. */
  ghost function KillGold(kills: seq<Kill>, p: int, n: nat): int
    requires n <= |kills|
  {
    if n == 0 then 0 else KillGold(kills, p, n - 1) + if kills[n - 1].owner == p then kills[n - 1].gold else 0
  }

  ghost function KillGoldAt(kills: seq<Kill>, p: int, times: set<real>, n: nat): int
    requires n <= |kills|
  {
    if n == 0 then 0
    else
      KillGoldAt(kills, p, times, n - 1)
      + if kills[n - 1].owner == p && kills[n - 1].t in times then kills[n - 1].gold else 0
  }

  ghost predicate KillsAre(deaths: seq<Death>, golds: seq<Gold>, partner: Partners, kills: seq<Kill>) {
    Valid(deaths, partner) && |kills| == |partner| && forall l | 0 <= l < |kills| ::
        kills[l] == KillOf(deaths, golds, partner, l)
  }

  lemma {:induction false} KillGoldSplit(deaths: seq<Death>, golds: seq<Gold>, partner: Partners, kills: seq<Kill>,
                                         p: int, times: set<real>, t: real, n: nat)
    requires KillsAre(deaths, golds, partner, kills) && n <= |kills| && p >= 0 && t in times
    ensures KillGoldAt(kills, p, times, n) == KillGoldAt(kills, p, times - {t}, n)
            + Shares(deaths, golds, partner, Key(p, t), n)
  {
    hide Share;
    if n > 0 {
      KillGoldSplit(deaths, golds, partner, kills, p, times, t, n - 1);
    }
  }

  lemma {:induction false} PaidSplit(golds: seq<Gold>, p: int, times: set<real>, t: real)
    requires t in times
    ensures PaidAt(golds, p, times) == PaidAt(golds, p, times - {t}) + Paid(golds, Key(p, t))
  {
    if golds != [] { PaidSplit(golds[..|golds| - 1], p, times, t); }
  }

  lemma {:induction false} PaidNotNegative(golds: seq<Gold>, k: Key)
    requires forall g | g in golds :: g.gold >= 0
    ensures Paid(golds, k) >= 0
  {
    if golds != [] {
      assert forall g | g in golds[..|golds| - 1] :: g in golds;
      assert golds[|golds| - 1] in golds;
      PaidNotNegative(golds[..|golds| - 1], k);
    }
  }

  lemma {:induction false} PaidAtMost(golds: seq<Gold>, p: int, times: set<real>)
    requires forall g | g in golds :: g.gold >= 0
    ensures PaidAt(golds, p, times) <= PaidTo(golds, p)
  {
    if golds != [] {
      assert forall g | g in golds[..|golds| - 1] :: g in golds;
      assert golds[|golds| - 1] in golds;
      PaidAtMost(golds[..|golds| - 1], p, times);
    }
  }

  lemma {:induction false} NoTimes(kills: seq<Kill>, golds: seq<Gold>, p: int, n: nat)
    requires n <= |kills|
    ensures KillGoldAt(kills, p, {}, n) == 0
  {
    if n > 0 { NoTimes(kills, golds, p, n - 1); }
  }

  lemma {:induction false} NothingPaid(golds: seq<Gold>, p: int)
    ensures PaidAt(golds, p, {}) == 0
  {
    if golds != [] { NothingPaid(golds[..|golds| - 1], p); }
  }

  lemma {:induction false} TimeByTime(lives: seq<Life>, deaths: seq<Death>, golds: seq<Gold>, partner: Partners,
                                      kills: seq<Kill>, p: int, times: set<real>)
    requires IsJoin(lives, deaths, partner) && KillsAre(deaths, golds, partner, kills) && p >= 0
    requires forall g | g in golds :: g.gold >= 0
    ensures KillGoldAt(kills, p, times, |kills|) <= PaidAt(golds, p, times)
    decreases |times|
  {
    hide Paid, PaidAt, KillGoldAt, Shares, Quot, Count, IsJoin, KillsAre, Matched;
    if times == {} {
      NoTimes(kills, golds, p, |kills|);
      NothingPaid(golds, p);
    } else {
      var t := Member(times);
      TimeByTime(lives, deaths, golds, partner, kills, p, times - {t});
      OneTime(lives, deaths, golds, partner, kills, p, times, t);
    }
  }

  lemma OneTime(lives: seq<Life>, deaths: seq<Death>, golds: seq<Gold>, partner: Partners, kills: seq<Kill>,
                p: int, times: set<real>, t: real)
    requires IsJoin(lives, deaths, partner) && KillsAre(deaths, golds, partner, kills) && p >= 0 && t in times
    requires forall g | g in golds :: g.gold >= 0
    ensures KillGoldAt(kills, p, times, |kills|) - KillGoldAt(kills, p, times - {t}, |kills|)
            <= PaidAt(golds, p, times) - PaidAt(golds, p, times - {t})
  {
    hide Paid, PaidAt, KillGoldAt, Shares, Quot, Count, IsJoin, Matched;
    KillGoldSplit(deaths, golds, partner, kills, p, times, t, |kills|);
    PaidSplit(golds, p, times, t);
    PaidNotNegative(golds, Key(p, t));
    GoldIsSplit(lives, deaths, golds, partner, Key(p, t));
  }

  lemma {:induction false} AllTimes(kills: seq<Kill>, p: int, times: set<real>, n: nat)
    requires n <= |kills| && forall l | 0 <= l < n :: kills[l].t in times
    ensures KillGoldAt(kills, p, times, n) == KillGold(kills, p, n)
  {
    if n > 0 { AllTimes(kills, p, times, n - 1); }
  }

  /** The creeps a player killed are worth no more than he was paid for neutrals. */
  lemma KillsWerePaid(lives: seq<Life>, deaths: seq<Death>, golds: seq<Gold>, partner: Partners, kills: seq<Kill>,
                      p: int)
    requires IsJoin(lives, deaths, partner) && KillsAre(deaths, golds, partner, kills) && p >= 0
    requires forall g | g in golds :: g.gold >= 0
    ensures KillGold(kills, p, |kills|) <= PaidTo(golds, p)
  {
    hide PaidAt, PaidTo, KillGoldAt, KillGold, IsJoin, KillsAre;
    var times := set k | k in kills :: k.t;
    AllTimes(kills, p, times, |kills|);
    TimeByTime(lives, deaths, golds, partner, kills, p, times);
    PaidAtMost(golds, p, times);
  }

  lemma ShareNotNegative(deaths: seq<Death>, golds: seq<Gold>, partner: Partners, l: nat)
    requires Valid(deaths, partner) && l < |partner| && forall g | g in golds :: g.gold >= 0
    ensures Share(deaths, golds, partner, l) >= 0
  {
    hide Paid, Count;
    var key := KeyOf(deaths, partner, l);
    if key.Some? && Count(deaths, key.value) > 0 {
      PaidNotNegative(golds, key.value);
      PartsNotNegative(Paid(golds, key.value), Count(deaths, key.value));
    }
  }

  lemma PartsNotNegative(paid: int, n: nat)
    requires paid >= 0 && n > 0
    ensures Quot(paid, n) >= 0 && Rem(paid, n) >= 0
  {
  }

  lemma KillsNotNegative(deaths: seq<Death>, golds: seq<Gold>, partner: Partners, kills: seq<Kill>)
    requires KillsAre(deaths, golds, partner, kills) && forall g | g in golds :: g.gold >= 0
    ensures forall k | k in kills :: k.gold >= 0
  {
    hide Share, Valid;
    forall k | k in kills ensures k.gold >= 0 {
      var l :| 0 <= l < |kills| && kills[l] == k;
      ShareNotNegative(deaths, golds, partner, l);
    }
  }

  // ---- the join in plain numbers

  /** The window: from three tenths of a second before the creep was seen dead to a twentieth after it. */
  lemma WindowMeans(l: Life, d: Death)
    ensures InWindow(l, d) <==> l.killed > 0.0 && !l.summoned && l.killed - 0.3 <= d.t <= l.killed + 0.05
  {
  }

  /** Where the killer's hero stood and where the creep died are both known. */
  ghost predicate Placed(l: Life, d: Death) {
    d.owner >= 0 && (d.hx > 0.0 || d.hy > 0.0) && (l.kx > 0.0 || l.ky > 0.0)
  }

  ghost function Apart(l: Life, d: Death, hypot: (real, real) -> real): real {
    if Placed(l, d) then hypot(d.hx - l.kx, d.hy - l.ky) else 50.0
  }

  /** Of deaths in a creep's window one of its species fits better than one of another, unless the killer stood
      hundreds of cells away; the same of the creeps of a death. */
  lemma SameSpeciesFirst(l: Life, d: Death, m: Life, e: Death, hypot: (real, real) -> real)
    requires InWindow(l, d) && InWindow(m, e) && l.species == d.species && m.species != "" && m.species != e.species
    requires 0.0 <= Apart(l, d, hypot) <= 996.0 && 0.0 <= Apart(m, e, hypot)
    ensures Score(l, d, hypot) < Score(m, e, hypot)
  {
  }

  /** With the species alike and seen as far apart in time, the nearer killer fits better. */
  lemma NearerFits(l: Life, d: Death, m: Life, e: Death, hypot: (real, real) -> real)
    requires l.killed - d.t == m.killed - e.t && Apart(l, d, hypot) < Apart(m, e, hypot)
    requires (l.species == "" || l.species == d.species) <==> (m.species == "" || m.species == e.species)
    ensures Score(l, d, hypot) < Score(m, e, hypot)
  {
  }

  ghost function Between(a: real, b: real): real {
    if a <= b then b - a else a - b
  }

  /** With the species alike and the killers equally near, the death nearer in time fits better, ten cells a second. */
  lemma SoonerFits(l: Life, d: Death, m: Life, e: Death, hypot: (real, real) -> real)
    requires Apart(l, d, hypot) == Apart(m, e, hypot)
    requires (l.species == "" || l.species == d.species) <==> (m.species == "" || m.species == e.species)
    ensures Score(m, e, hypot) - Score(l, d, hypot) == 10.0 * (Between(m.killed, e.t) - Between(l.killed, d.t))
  {
  }

  /** Another species costs a thousand cells, whatever else is the same. */
  lemma SpeciesCosts(l: Life, d: Death, m: Life, e: Death, hypot: (real, real) -> real)
    requires Apart(l, d, hypot) == Apart(m, e, hypot) && Between(l.killed, d.t) == Between(m.killed, e.t)
    requires (l.species == "" || l.species == d.species) && m.species != "" && m.species != e.species
    ensures Score(m, e, hypot) - Score(l, d, hypot) == 1000.0
  {
  }

  /** Creep l and death j fit better than l and any other death of its window, and than j and any other creep. */
  ghost predicate BestFit(lives: seq<Life>, deaths: seq<Death>, hypot: (real, real) -> real, l: nat, j: nat)
    requires l < |lives| && j < |deaths|
  {
    && (forall k: nat | k < |deaths| && k != j && InWindow(lives[l], deaths[k]) ::
          Score(lives[l], deaths[j], hypot) < Score(lives[l], deaths[k], hypot))
    && (forall m: nat | m < |lives| && m != l && InWindow(lives[m], deaths[j]) ::
          Score(lives[l], deaths[j], hypot) < Score(lives[m], deaths[j], hypot))
  }

  /** What fits best on both sides is joined. */
  lemma BestFitIsJoined(lives: seq<Life>, deaths: seq<Death>, hypot: (real, real) -> real, partner: Partners, l: nat,
                        j: nat)
    requires IsJoin(lives, deaths, partner) && l < |lives| && j < |deaths|
    requires Content(lives, deaths, hypot, partner, l, j) && BestFit(lives, deaths, hypot, l, j)
    ensures partner[l] == Some(j)
  {
    hide Score, InWindow;
    var m: nat, k: nat :| Joined(partner, m, k) && (m == l || k == j)
                          && Score(lives[m], deaths[k], hypot) <= Score(lives[l], deaths[j], hypot);
  }

  /** A creep is joined to the one death of its species in its window when no other creep of that window could be of
      this species, wherever the killer stood within hundreds of cells. */
  lemma OnlyOfItsSpecies(lives: seq<Life>, deaths: seq<Death>, hypot: (real, real) -> real, partner: Partners, l: nat,
                         j: nat)
    requires IsJoin(lives, deaths, partner) && l < |lives| && j < |deaths| && InWindow(lives[l], deaths[j])
    requires Content(lives, deaths, hypot, partner, l, j)
    requires lives[l].species == deaths[j].species != "" && Apart(lives[l], deaths[j], hypot) <= 996.0
    requires forall x, y :: hypot(x, y) >= 0.0
    requires forall k: nat | k < |deaths| && k != j && InWindow(lives[l], deaths[k]) ::
               deaths[k].species != lives[l].species
    requires forall m: nat | m < |lives| && m != l && InWindow(lives[m], deaths[j]) ::
               lives[m].species != "" && lives[m].species != deaths[j].species
    ensures partner[l] == Some(j)
  {
    hide Content, IsJoin, Score, InWindow;
    forall k: nat | k < |deaths| && k != j && InWindow(lives[l], deaths[k])
      ensures Score(lives[l], deaths[j], hypot) < Score(lives[l], deaths[k], hypot)
    {
      SameSpeciesFirst(lives[l], deaths[j], lives[l], deaths[k], hypot);
    }
    forall m: nat | m < |lives| && m != l && InWindow(lives[m], deaths[j])
      ensures Score(lives[l], deaths[j], hypot) < Score(lives[m], deaths[j], hypot)
    {
      SameSpeciesFirst(lives[l], deaths[j], lives[m], deaths[j], hypot);
    }
    BestFitIsJoined(lives, deaths, hypot, partner, l, j);
  }

  ghost predicate EvenShare(share: int, n: nat, paid: int) {
    if paid >= 0 then n * share <= paid < n * share + n else n * share - n < paid <= n * share
  }

  /** An even share, and for the first creep what even shares for all leave over. */
  ghost predicate Worth(gold: int, n: nat, paid: int, first: bool) {
    exists share :: EvenShare(share, n, paid) && gold == share + if first then paid - n * share else 0
  }

  /** A creep that is not joined was killed by nobody known, which is not the same as by no player, and for no gold. */
  lemma UnjoinedKill(deaths: seq<Death>, golds: seq<Gold>, partner: Partners, l: nat)
    requires Valid(deaths, partner) && l < |partner| && partner[l] == None
    ensures KillOf(deaths, golds, partner, l) == Kill(-2, 0.0, 0)
  {
  }

  /** A joined creep's kill in numbers: its death's owner and stamp; killed by a player it is worth the whole part of
      an even share among all neutrals he killed in that tick, rounded towards zero, the first such creep the rest as
      well. */
  lemma KillInNumbers(deaths: seq<Death>, golds: seq<Gold>, partner: Partners, l: nat, j: nat)
    requires Valid(deaths, partner) && l < |partner| && partner[l] == Some(j)
    ensures j < |deaths|
    ensures var kill, d := KillOf(deaths, golds, partner, l), deaths[j];
            var n, paid := |Of(deaths, Key(d.owner, d.t))|, Paid(golds, Key(d.owner, d.t));
            && kill.owner == d.owner && kill.t == d.t && (d.owner < 0 ==> kill.gold == 0)
            && (d.owner >= 0 ==>
                  n > 0 && Worth(kill.gold, n, paid, FirstOfKey(deaths, partner, l)))
  {
    var d := deaths[j];
    var k := Key(d.owner, d.t);
    CountIsSize(deaths, k);
    assert j in Of(deaths, k);
    hide Paid, Count, FirstOfKey, Of, Quot, Rem, Worth;
    if d.owner >= 0 {
      var n, paid := |Of(deaths, k)|, Paid(golds, k);
      ShareIsWorth(n, paid, FirstOfKey(deaths, partner, l));
    }
  }

  lemma ShareIsWorth(n: nat, paid: int, first: bool)
    requires n > 0
    ensures Worth(Quot(paid, n) + if first then Rem(paid, n) else 0, n, paid, first)
  {
    Even(paid, n);
  }

  lemma Even(paid: int, n: nat)
    requires n > 0
    ensures EvenShare(Quot(paid, n), n, paid)
    ensures Rem(paid, n) == paid - n * Quot(paid, n)
  {
  }
}
