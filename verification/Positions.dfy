/** Positions 1 to 5 of every side (main.go, assignPositions). The five players of a side are numbered in slot order. */
module Positions {
  import opened Sorting

  datatype Lane = Mid | SafeLane | OffLane | Elsewhere

  /** hero 0: an empty slot; lh10: last hits at ten minutes; lane: the exported one. */
  datatype Player = Player(radiant: bool, hero: nat, lh10: nat, lastHits: nat, placed: nat, bought: nat, worth: int,
      lane: Lane)

  function Wards(p: Player): nat {
    if p.placed > p.bought then p.placed else p.bought
  }

  function Larger(a: real, b: real): real {
    if b > a then b else a
  }

  // ---- who farmed how much

  function BestLh10(team: seq<Player>): (m: real)
    ensures m >= 1.0 && forall p | p in team :: p.lh10 as real <= m
  {
    if team == [] then 1.0
    else
      var n := |team| - 1;
      assert team == team[..n] + [team[n]];
      Larger(BestLh10(team[..n]), team[n].lh10 as real)
  }

  function BestLh(team: seq<Player>): (m: real)
    ensures m >= 1.0 && forall p | p in team :: p.lastHits as real <= m
  {
    if team == [] then 1.0
    else
      var n := |team| - 1;
      assert team == team[..n] + [team[n]];
      Larger(BestLh(team[..n]), team[n].lastHits as real)
  }

  function TeamWards(team: seq<Player>): nat {
    if team == [] then 0 else TeamWards(team[..|team| - 1]) + Wards(team[|team| - 1])
  }

  /** Wards a minute, one at most. */
  function Capped(wards: nat, minutes: real): real
    requires minutes >= 10.0
  {
    var penalty := wards as real / minutes;
    if penalty > 1.0 then 1.0 else penalty
  }

  /** The share of the team's best last hits, less a part for warding. */
  function Score(p: Player, bestLh10: real, bestLh: real, minutes: real): real
    requires bestLh10 >= 1.0 && bestLh >= 1.0 && minutes >= 10.0
  {
    (p.lh10 as real / bestLh10 + p.lastHits as real / bestLh) / 2.0 - 0.4 * Capped(Wards(p), minutes)
  }

  /** What the ranking looks at. */
  datatype Farm = Farm(score: real, worth: int, lane: Lane)

  ghost predicate Farmed(team: seq<Player>, minutes: real, farm: seq<Farm>)
    requires minutes >= 10.0
  {
    && |farm| == |team|
    && forall k | 0 <= k < |team| ::
         farm[k] == Farm(Score(team[k], BestLh10(team), BestLh(team), minutes), team[k].worth, team[k].lane)
  }

  method Measure(team: seq<Player>, minutes: real) returns (farm: seq<Farm>, teamWards: nat)
    requires minutes >= 10.0
    ensures Farmed(team, minutes, farm) && teamWards == TeamWards(team)
  {
    hide Score;
    var bestLh10, bestLh := 1.0, 1.0;
    teamWards := 0;
    for k := 0 to |team|
      invariant bestLh10 == BestLh10(team[..k]) && bestLh == BestLh(team[..k]) && teamWards == TeamWards(team[..k])
    {
      assert team[..k + 1][..k] == team[..k];
      bestLh10 := Larger(bestLh10, team[k].lh10 as real);
      bestLh := Larger(bestLh, team[k].lastHits as real);
      teamWards := teamWards + Wards(team[k]);
    }
    assert team[..|team|] == team;
    farm := [];
    for k := 0 to |team|
      invariant |farm| == k
      invariant forall a | 0 <= a < k ::
                farm[a] == Farm(Score(team[a], bestLh10, bestLh, minutes), team[a].worth, team[a].lane)
    {
      farm := farm + [Farm(Score(team[k], bestLh10, bestLh, minutes), team[k].worth, team[k].lane)];
    }
  }

  // ---- the farmer first

  function Rank(solo: int, i: nat): int {
    if i == solo then -1 else i
  }

  /** The higher score, then the higher net worth, then the lone mid and the lower slot. */
  predicate Ahead(farm: seq<Farm>, solo: int, i: nat, j: nat)
    requires i < |farm| && j < |farm|
  {
    farm[i].score > farm[j].score
    || (farm[i].score == farm[j].score
        && (farm[i].worth > farm[j].worth || (farm[i].worth == farm[j].worth && Rank(solo, i) < Rank(solo, j))))
  }

  ghost predicate Within(n: nat, list: seq<nat>) {
    forall a | 0 <= a < |list| :: list[a] < n
  }

  ghost predicate FarmerFirst(farm: seq<Farm>, solo: int, list: seq<nat>) {
    Within(|farm|, list) && forall a, b | 0 <= a < b < |list| :: Ahead(farm, solo, list[a], list[b])
  }

  predicate Tied(farm: seq<Farm>, i: nat, j: nat) {
    i < |farm| && j < |farm| && farm[i].score == farm[j].score && farm[i].worth == farm[j].worth
  }

  /** Equal farmers are listed in the order of their ranks. */
  ghost predicate TiesInOrder(farm: seq<Farm>, solo: int, list: seq<nat>) {
    Within(|farm|, list)
    && forall a, b | 0 <= a < b < |list| && Tied(farm, list[a], list[b]) :: Rank(solo, list[a]) < Rank(solo, list[b])
  }

  method SortFarmers(farm: seq<Farm>, ghost solo: int, list: seq<nat>) returns (sorted: seq<nat>)
    requires TiesInOrder(farm, solo, list)
    ensures FarmerFirst(farm, solo, sorted) && |sorted| == |list|
    ensures forall i :: i in sorted <==> i in list
  {
    hide StableSort, Rank;
    var worth := (i: nat) => if i < |farm| then -(farm[i].worth as real) else 0.0;
    var score := (i: nat) => if i < |farm| then -farm[i].score else 0.0;
    ghost var ranked := (i: nat, j: nat) => Tied(farm, i, j) ==> Rank(solo, i) < Rank(solo, j);
    ghost var richer := (i: nat, j: nat) => worth(i) < worth(j) || (worth(i) == worth(j) && ranked(i, j));
    var byWorth := StableSort(list, worth);
    StableSortSpec(list, worth, ranked);
    assert Listed(byWorth, richer);
    sorted := StableSort(byWorth, score);
    StableSortSpec(byWorth, score, richer);
    forall a | 0 <= a < |sorted| ensures sorted[a] < |farm| {
      assert sorted[a] in sorted;
    }
    forall a, b | 0 <= a < b < |sorted| ensures Ahead(farm, solo, sorted[a], sorted[b]) {
    }
  }

  // ---- cores and supports

  /** The only mid of the side, when the side hardly warded or he did less than a quarter of it. */
  predicate LoneMid(team: seq<Player>, i: nat)
    requires i < |team|
  {
    && team[i].lane == Mid && (forall j | 0 <= j < |team| && j != i :: team[j].lane != Mid)
    && (TeamWards(team) < 5 || Wards(team[i]) as real < 0.25 * TeamWards(team) as real)
  }

  /** solo: the lone mid, -1 when there is none. */
  ghost predicate IsSolo(team: seq<Player>, solo: int) {
    if solo < 0 then solo == -1 && forall i | 0 <= i < |team| :: !LoneMid(team, i)
    else solo < |team| && LoneMid(team, solo)
  }

  method FindSolo(team: seq<Player>, teamWards: nat) returns (solo: int)
    requires teamWards == TeamWards(team)
    ensures IsSolo(team, solo)
  {
    hide TeamWards;
    var mids: seq<nat> := [];
    for i := 0 to |team|
      invariant forall a | 0 <= a < |mids| :: mids[a] < i && team[mids[a]].lane == Mid
      invariant forall a, b | 0 <= a < b < |mids| :: mids[a] < mids[b]
      invariant forall j | 0 <= j < i && team[j].lane == Mid :: j in mids
    {
      if team[i].lane == Mid {
        mids := mids + [i];
      }
    }
    solo := -1;
    if |mids| == 1 && (teamWards < 5 || Wards(team[mids[0]]) as real < 0.25 * teamWards as real) {
      solo := mids[0];
    }
    forall i | 0 <= i < |team| && solo < 0 ensures !LoneMid(team, i) {
      if |mids| > 1 {
        assert team[mids[0]].lane == team[mids[1]].lane == Mid && mids[0] != mids[1];
      }
    }
  }

  /** The three cores and the two supports, each the farmer first. */
  ghost predicate Divided(farm: seq<Farm>, solo: int, cores: seq<nat>, supports: seq<nat>) {
    && |farm| == 5 && |cores| == 3 && |supports| == 2
    && FarmerFirst(farm, solo, cores) && FarmerFirst(farm, solo, supports)
    && (forall i: nat | i < 5 :: i in cores <==> i !in supports)
    && (solo >= 0 ==> solo in cores)
    && (forall i: nat, j: nat | i in cores && i != solo && j in supports :: i < 5 && j < 5 && Ahead(farm, solo, i, j))
  }

  method Others(n: nat, solo: int) returns (list: seq<nat>)
    requires -1 <= solo < n
    ensures Within(n, list) && (forall a, b | 0 <= a < b < |list| :: list[a] < list[b])
    ensures |list| == if solo < 0 then n else n - 1
    ensures forall i: nat :: i in list <==> i < n && i != solo
  {
    list := [];
    for i := 0 to n
      invariant forall a | 0 <= a < |list| :: list[a] < i && list[a] != solo
      invariant forall a, b | 0 <= a < b < |list| :: list[a] < list[b]
      invariant |list| == if 0 <= solo < i then i - 1 else i
      invariant forall j: nat :: j in list <==> j < i && j != solo
    {
      if i != solo {
        list := list + [i];
      }
    }
  }

  function Below(cores: seq<nat>, i: nat): nat
    requires |cores| == 3
  {
    (if cores[0] < i then 1 else 0) + (if cores[1] < i then 1 else 0) + (if cores[2] < i then 1 else 0)
  }

  /** The players that are not cores. */
  method Rest(cores: seq<nat>) returns (list: seq<nat>)
    requires |cores| == 3 && Within(5, cores)
    requires cores[0] != cores[1] && cores[0] != cores[2] && cores[1] != cores[2]
    ensures |list| == 2 && Within(5, list) && list[0] < list[1]
    ensures forall i: nat | i < 5 :: i in cores <==> i !in list
  {
    list := [];
    for i := 0 to 5
      invariant |list| + Below(cores, i) == i
      invariant forall a | 0 <= a < |list| :: list[a] < i && list[a] !in cores
      invariant forall a, b | 0 <= a < b < |list| :: list[a] < list[b]
      invariant forall j: nat | j < i :: j in cores || j in list
    {
      if i !in cores {
        list := list + [i];
      }
    }
  }

  /** The best of the ranked, with the lone mid. */
  function Chosen(solo: int, ranked: seq<nat>): seq<nat>
    requires |ranked| >= 3
  {
    if solo >= 0 then [solo] + ranked[..2] else ranked[..3]
  }

  method Divide(farm: seq<Farm>, solo: int) returns (cores: seq<nat>, supports: seq<nat>)
    requires |farm| == 5 && -1 <= solo < 5
    ensures Divided(farm, solo, cores, supports)
  {
    hide Ahead, Rank, TiesInOrder;
    var list := Others(5, solo);
    ListedTies(farm, solo, list);
    var ranked := SortFarmers(farm, solo, list);
    var chosen := Chosen(solo, ranked);
    ChosenFacts(farm, solo, ranked);
    var rest := Rest(chosen);
    BestAhead(farm, solo, ranked, rest);
    ListedTies(farm, solo, rest);
    supports := SortFarmers(farm, solo, rest);
    cores := SortFarmers(farm, solo, chosen);
  }

  lemma ListedTies(farm: seq<Farm>, solo: int, list: seq<nat>)
    requires Within(|farm|, list) && solo !in list
    requires forall a, b | 0 <= a < b < |list| :: list[a] < list[b]
    ensures TiesInOrder(farm, solo, list)
  {
  }

  lemma ChosenFacts(farm: seq<Farm>, solo: int, ranked: seq<nat>)
    requires FarmerFirst(farm, solo, ranked) && |farm| == 5 && -1 <= solo < 5
    requires |ranked| == (if solo < 0 then 5 else 4) && solo !in ranked
    ensures var chosen := Chosen(solo, ranked);
            && |chosen| == 3 && Within(5, chosen) && TiesInOrder(farm, solo, chosen)
            && chosen[0] != chosen[1] && chosen[0] != chosen[2] && chosen[1] != chosen[2]
            && (solo >= 0 ==> solo == chosen[0])
  {
    var chosen := Chosen(solo, ranked);
    if solo >= 0 {
      assert chosen[0] == solo && chosen[1] == ranked[0] && chosen[2] == ranked[1];
      assert ranked[0] in ranked && ranked[1] in ranked;
    } else {
      assert chosen[0] == ranked[0] && chosen[1] == ranked[1] && chosen[2] == ranked[2];
    }
  }

  lemma BestAhead(farm: seq<Farm>, solo: int, ranked: seq<nat>, rest: seq<nat>)
    requires FarmerFirst(farm, solo, ranked) && |farm| == 5 && -1 <= solo < 5 && |ranked| >= 3
    requires forall i: nat | i < 5 && i != solo :: i in ranked
    requires Within(5, rest) && forall i: nat | i < 5 :: i in Chosen(solo, ranked) <==> i !in rest
    ensures solo !in rest
    ensures forall i: nat, j: nat | i in Chosen(solo, ranked) && i != solo && j in rest ::
            i < 5 && j < 5 && Ahead(farm, solo, i, j)
  {
    hide Ahead;
    var chosen := Chosen(solo, ranked);
    var n := if solo >= 0 then 2 else 3;
    if solo >= 0 {
      assert chosen[0] == solo && solo in chosen;
    }
    assert solo !in rest;
    assert forall x | 0 <= x < n :: chosen[if solo >= 0 then x + 1 else x] == ranked[x];
    assert forall x | 0 <= x < n :: ranked[x] in chosen;
    forall i: nat, j: nat | i in chosen && i != solo && j in rest ensures i < 5 && j < 5 && Ahead(farm, solo, i, j) {
      var a :| 0 <= a < n && ranked[a] == i;
      assert j !in chosen && j != solo && j in ranked;
      var b :| 0 <= b < |ranked| && ranked[b] == j;
    }
  }

  // ---- the core slots

  /** The slot a lane names; 0: none. */
  function SlotOf(lane: Lane): nat {
    match lane
    case Mid => 2
    case SafeLane => 1
    case OffLane => 3
    case Elsewhere => 0
  }

  /** The slot the k-th core gets by his lane: only the first core of a lane does. */
  function Named(lanes: seq<Lane>, k: nat): nat
    requires k < |lanes|
  {
    if exists j | 0 <= j < k :: lanes[j] == lanes[k] then 0 else SlotOf(lanes[k])
  }

  /** The first core of the lane that has no slot gets it. */
  method NameSlot(lanes: seq<Lane>, given: seq<nat>, lane: Lane, slot: nat) returns (given': seq<nat>)
    requires |given| == |lanes|
    ensures |given'| == |lanes|
    ensures forall k | 0 <= k < |lanes| ::
              given'[k] == if lanes[k] == lane && given[k] == 0 && (forall j | 0 <= j < k ::
                  !(lanes[j] == lane && given[j] == 0))
                              then slot else given[k]
  {
    given' := given;
    for k := 0 to |lanes|
      invariant given' == given && forall j | 0 <= j < k :: !(lanes[j] == lane && given[j] == 0)
    {
      if given'[k] == 0 && lanes[k] == lane {
        return given[k := slot];
      }
    }
  }

  function Zeros(named: seq<nat>): nat {
    if named == [] then 0 else Zeros(named[..|named| - 1]) + if named[|named| - 1] == 0 then 1 else 0
  }

  /** The core slots no lane names. */
  method FreeSlots(named: seq<nat>) returns (free: seq<nat>)
    ensures forall a, b | 0 <= a < b < |free| :: free[a] < free[b]
    ensures forall s: nat :: s in free <==> 1 <= s <= 3 && s !in named
    ensures |free| == (if 1 in named then 0 else 1) + (if 2 in named then 0 else 1) + (if 3 in named then 0 else 1)
  {
    free := [];
    for s := 1 to 4
      invariant forall a | 0 <= a < |free| :: free[a] < s
      invariant forall a, b | 0 <= a < b < |free| :: free[a] < free[b]
      invariant forall t: nat :: t in free <==> 1 <= t < s && t !in named
      invariant |free| == (if 1 in named || s <= 1 then 0 else 1) + (if 2 in named || s <= 2 then 0 else 1)
                + (if 3 in named || s <= 3 then 0 else 1)
    {
      if s !in named {
        free := free + [s];
      }
    }
  }

  /** What a good naming of the core slots is: a slot of 1 to 3 for each, no slot twice; the first core of a named lane
      has its slot, and the others take what is left, lower slots first. */
  ghost predicate Slotted(lanes: seq<Lane>, slots: seq<nat>) {
    && |slots| == |lanes|
    && (forall k | 0 <= k < |slots| :: 1 <= slots[k] <= 3 && (Named(lanes, k) != 0 ==> slots[k] == Named(lanes, k)))
    && (forall k, m | 0 <= k < m < |slots| :: slots[k] != slots[m])
    && (forall k, m | 0 <= k < m < |slots| && Named(lanes, k) == 0 && Named(lanes, m) == 0 :: slots[k] < slots[m])
  }

  /** The core slots in order: named ones stay, the others get the free slots. */
  method FillSlots(named: seq<nat>, free: seq<nat>) returns (slots: seq<nat>)
    requires |named| == 3 && Zeros(named[..0]) == 0
    requires forall i | 0 <= i < 3 :: Zeros(named[..i + 1]) == Zeros(named[..i]) + if named[i] == 0 then 1 else 0
    requires forall i | 0 <= i < 3 && named[i] == 0 :: Zeros(named[..i]) < |free|
    ensures |slots| == 3
    ensures forall j | 0 <= j < 3 :: slots[j] == if named[j] != 0 then named[j] else free[Zeros(named[..j])]
  {
    hide Zeros;
    slots := named;
    var k := 0;
    for i := 0 to 3
      invariant |slots| == 3 && k == Zeros(named[..i])
      invariant forall j | i <= j < 3 :: slots[j] == named[j]
      invariant forall j | 0 <= j < i :: slots[j] == if named[j] != 0 then named[j] else free[Zeros(named[..j])]
    {
      if slots[i] == 0 {
        slots := slots[i := free[k]];
        k := k + 1;
      }
    }
  }

  method CoreSlots(lanes: seq<Lane>) returns (slots: seq<nat>)
    requires |lanes| == 3
    ensures Slotted(lanes, slots)
  {
    hide Zeros, Slotted;
    var named := [0, 0, 0];
    named := NameSlot(lanes, named, Mid, 2);
    named := NameSlot(lanes, named, SafeLane, 1);
    named := NameSlot(lanes, named, OffLane, 3);
    assert forall k | 0 <= k < 3 :: named[k] == Named(lanes, k);
    var free := FreeSlots(named);
    FreeForEach(lanes, named, free);
    slots := FillSlots(named, free);
    NoSlotTwice(lanes, named, free, slots);
  }

  lemma ZerosOfThree(named: seq<nat>)
    requires |named| == 3
    ensures Zeros(named[..0]) == 0
    ensures Zeros(named[..1]) == if named[0] == 0 then 1 else 0
    ensures Zeros(named[..2]) == Zeros(named[..1]) + if named[1] == 0 then 1 else 0
    ensures Zeros(named[..3]) == Zeros(named[..2]) + if named[2] == 0 then 1 else 0
  {
    assert named[..1][..0] == named[..0] && named[..2][..1] == named[..1] && named[..3][..2] == named[..2];
  }

  lemma NamedApart(lanes: seq<Lane>)
    requires |lanes| == 3
    ensures forall k, m | 0 <= k < m < 3 && Named(lanes, k) != 0 :: Named(lanes, m) != Named(lanes, k)
    ensures forall k | 0 <= k < 3 :: Named(lanes, k) <= 3
  {
  }

  /** Of the three slots as many are free as cores have none. */
  lemma FreeForEach(lanes: seq<Lane>, named: seq<nat>, free: seq<nat>)
    requires |lanes| == |named| == 3 && forall k | 0 <= k < 3 :: named[k] == Named(lanes, k)
    requires |free| == (if 1 in named then 0 else 1) + (if 2 in named then 0 else 1) + (if 3 in named then 0 else 1)
    ensures |free| == Zeros(named[..3]) && forall i | 0 <= i < 3 && named[i] == 0 :: Zeros(named[..i]) < |free|
    ensures forall i | 0 <= i < 3 :: Zeros(named[..i + 1]) == Zeros(named[..i]) + if named[i] == 0 then 1 else 0
    ensures forall i, j | 0 <= i <= j <= 3 :: Zeros(named[..i]) <= Zeros(named[..j])
    ensures Zeros(named[..0]) == 0
  {
    hide Named, Zeros;
    NamedApart(lanes);
    ZerosOfThree(named);
    assert named == [named[0], named[1], named[2]];
    forall i | 0 <= i < 3 ensures Zeros(named[..i + 1]) == Zeros(named[..i]) + if named[i] == 0 then 1 else 0 {
      assert i == 0 || i == 1 || i == 2;
    }
    forall i, j | 0 <= i <= j <= 3 ensures Zeros(named[..i]) <= Zeros(named[..j]) {
      assert (i == 0 || i == 1 || i == 2 || i == 3) && (j == 0 || j == 1 || j == 2 || j == 3);
    }
  }

  lemma NoSlotTwice(lanes: seq<Lane>, named: seq<nat>, free: seq<nat>, slots: seq<nat>)
    requires |lanes| == |named| == |slots| == 3 && forall k | 0 <= k < 3 :: named[k] == Named(lanes, k)
    requires forall a, b | 0 <= a < b < |free| :: free[a] < free[b]
    requires forall s: nat :: s in free <==> 1 <= s <= 3 && s !in named
    requires |free| == Zeros(named[..3])
    requires forall i | 0 <= i < 3 :: Zeros(named[..i + 1]) == Zeros(named[..i]) + if named[i] == 0 then 1 else 0
    requires forall i, j | 0 <= i <= j <= 3 :: Zeros(named[..i]) <= Zeros(named[..j])
    requires forall j | 0 <= j < 3 :: Zeros(named[..j]) < |free| || named[j] != 0
    requires forall j | 0 <= j < 3 :: slots[j] == if named[j] != 0 then named[j] else free[Zeros(named[..j])]
    ensures Slotted(lanes, slots)
  {
    hide Named, Zeros;
    NamedApart(lanes);
    forall k, m | 0 <= k < m < 3
      ensures slots[k] != slots[m] && (named[k] == 0 && named[m] == 0 ==> slots[k] < slots[m])
    {
      assert Zeros(named[..k + 1]) <= Zeros(named[..m]);
      assert named[k] in named && named[m] in named;
      assert named[k] == 0 ==> slots[k] in free;
      assert named[m] == 0 ==> slots[m] in free;
    }
    forall k | 0 <= k < 3 ensures 1 <= slots[k] <= 3 {
      assert named[k] == 0 ==> slots[k] in free;
    }
  }

  // ---- the supports

  /** The richer of two supports is the 5 when he alone stood the safe lane, or when the safe lane does not tell and
      the poorer alone stood the off lane. */
  predicate RicherIsFive(richer: Lane, poorer: Lane) {
    if (richer == SafeLane) != (poorer == SafeLane) then richer == SafeLane
    else poorer == OffLane && richer != OffLane
  }

  method Five(farm: seq<Farm>, supports: seq<nat>) returns (five: nat)
    requires |supports| == 2 && Within(|farm|, supports)
    ensures five == if RicherIsFive(farm[supports[0]].lane, farm[supports[1]].lane) then supports[0] else supports[1]
  {
    var richer, poorer := supports[0], supports[1];
    var inSafe: seq<nat>, inOff: seq<nat> := [], [];
    for k := 0 to 2
      invariant k >= 1 ==>
                  inSafe == (if farm[richer].lane == SafeLane then [richer] else [])
                            + (if k == 2 && farm[poorer].lane == SafeLane then [poorer] else [])
      invariant k >= 1 ==>
                  inOff == (if farm[richer].lane == OffLane then [richer] else [])
                           + (if k == 2 && farm[poorer].lane == OffLane then [poorer] else [])
      invariant k == 0 ==> inSafe == [] && inOff == []
    {
      match farm[supports[k]].lane {
        case SafeLane => inSafe := inSafe + [supports[k]];
        case OffLane => inOff := inOff + [supports[k]];
        case _ =>
      }
    }
    five := poorer;
    if |inSafe| == 1 {
      five := inSafe[0];
    } else if |inOff| == 1 {
      five := if inOff[0] == richer then poorer else richer;
    }
  }

  // ---- a side

  ghost predicate Permutation(pos: seq<nat>) {
    && |pos| == 5 && (forall i | 0 <= i < 5 :: 1 <= pos[i] <= 5)
    && forall i, j | 0 <= i < j < 5 :: pos[i] != pos[j]
  }

  /** Core i is the first of his lane, the farmer first. */
  ghost predicate FirstOfLane(farm: seq<Farm>, solo: int, pos: seq<nat>, i: nat)
    requires |farm| == |pos| == 5 && i < 5
  {
    farm[i].lane != Elsewhere
    && forall j: nat | j < 5 && pos[j] <= 3 && farm[j].lane == farm[i].lane && j != i :: Ahead(farm, solo, i, j)
  }

  /** The positions of a side of five. */
  ghost predicate Assignment(farm: seq<Farm>, solo: int, pos: seq<nat>)
    requires |farm| == 5
  {
    && Permutation(pos)
    && (0 <= solo < 5 ==> pos[solo] <= 3)
    && (forall i: nat, j: nat | i < 5 && j < 5 && pos[i] <= 3 && i != solo && pos[j] > 3 :: Ahead(farm, solo, i, j))
    && (forall i: nat | i < 5 && pos[i] <= 3 && FirstOfLane(farm, solo, pos, i) :: pos[i] == SlotOf(farm[i].lane))
    && (forall i: nat, j: nat | i < 5 && j < 5 && pos[i] <= 3 && pos[j] <= 3
                                && !FirstOfLane(farm, solo, pos, i) && !FirstOfLane(farm, solo, pos, j)
                                   && Ahead(farm, solo, i, j) ::
          pos[i] < pos[j])
    && (forall r: nat, p: nat | r < 5 && p < 5 && pos[r] > 3 && pos[p] > 3 && Ahead(farm, solo, r, p) ::
          pos[r] == if RicherIsFive(farm[r].lane, farm[p].lane) then 5 else 4)
  }

  // The lists of cores and supports give such an assignment.

  ghost function Lanes(farm: seq<Farm>, cores: seq<nat>): seq<Lane>
    requires Within(|farm|, cores)
  {
    seq(|cores|, k requires 0 <= k < |cores| => farm[cores[k]].lane)
  }

  ghost predicate Placed(farm: seq<Farm>, solo: int, cores: seq<nat>, supports: seq<nat>, slots: seq<nat>,
                         pos: seq<nat>)
  {
    && |pos| == 5 && Divided(farm, solo, cores, supports) && Slotted(Lanes(farm, cores), slots)
    && (forall k | 0 <= k < 3 :: pos[cores[k]] == slots[k])
    && pos[supports[0]] == (if RicherIsFive(farm[supports[0]].lane, farm[supports[1]].lane) then 5 else 4)
    && pos[supports[1]] == (if RicherIsFive(farm[supports[0]].lane, farm[supports[1]].lane) then 4 else 5)
  }

  /** A player is a core at some place of the list, or one of the two supports. */
  lemma Where(farm: seq<Farm>, solo: int, cores: seq<nat>, supports: seq<nat>, slots: seq<nat>, pos: seq<nat>, i: nat)
              returns (k: nat)
    requires Placed(farm, solo, cores, supports, slots, pos) && i < 5
    ensures pos[i] <= 3 ==> k < 3 && cores[k] == i && pos[i] == slots[k] >= 1
    ensures pos[i] > 3 ==> k < 2 && supports[k] == i && pos[i] <= 5
  {
    hide RicherIsFive, FarmerFirst, Named;
    k := 0;
    if i in cores {
      k :| 0 <= k < 3 && cores[k] == i;
    } else {
      k :| 0 <= k < 2 && supports[k] == i;
    }
  }

  lemma PlacedPermutes(farm: seq<Farm>, solo: int, cores: seq<nat>, supports: seq<nat>, slots: seq<nat>, pos: seq<nat>)
    requires Placed(farm, solo, cores, supports, slots, pos)
    ensures Permutation(pos)
  {
    forall i: nat | i < 5 ensures 1 <= pos[i] <= 5 {
      var k := Where(farm, solo, cores, supports, slots, pos, i);
    }
    forall i: nat, j: nat | i < j < 5 ensures pos[i] != pos[j] {
      var k := Where(farm, solo, cores, supports, slots, pos, i);
      var m := Where(farm, solo, cores, supports, slots, pos, j);
    }
  }

  lemma InOrder(farm: seq<Farm>, solo: int, list: seq<nat>, k: nat, m: nat)
    requires FarmerFirst(farm, solo, list) && k < |list| && m < |list|
    ensures Ahead(farm, solo, list[k], list[m]) <==> k < m
  {
  }

  /** The first core of a lane is the one the lane names. */
  lemma FirstIsNamed(farm: seq<Farm>, solo: int, cores: seq<nat>, supports: seq<nat>, slots: seq<nat>, pos: seq<nat>,
                     k: nat)
    requires Placed(farm, solo, cores, supports, slots, pos) && k < 3
    ensures cores[k] < 5 && (FirstOfLane(farm, solo, pos, cores[k]) <==> Named(Lanes(farm, cores), k) != 0)
    ensures Named(Lanes(farm, cores), k) != 0 ==> slots[k] == SlotOf(farm[cores[k]].lane)
  {
    hide Ahead, RicherIsFive;
    var lanes, i := Lanes(farm, cores), cores[k];
    if Named(lanes, k) != 0 {
      forall j: nat | j < 5 && pos[j] <= 3 && farm[j].lane == farm[i].lane && j != i ensures Ahead(farm, solo, i, j) {
        var m := Where(farm, solo, cores, supports, slots, pos, j);
        assert lanes[m] == lanes[k];
      }
    } else if farm[i].lane != Elsewhere {
      var j :| 0 <= j < k && lanes[j] == lanes[k];
      InOrder(farm, solo, cores, k, j);
      InOrder(farm, solo, cores, j, j);
      assert pos[cores[j]] <= 3;
    }
  }

  lemma PlacedIsAssignment(farm: seq<Farm>, solo: int, cores: seq<nat>, supports: seq<nat>, slots: seq<nat>,
                           pos: seq<nat>)
    requires Placed(farm, solo, cores, supports, slots, pos)
    ensures Assignment(farm, solo, pos)
  {
    hide Ahead, RicherIsFive, FirstOfLane, FarmerFirst, Permutation, Named, SlotOf;
    PlacedPermutes(farm, solo, cores, supports, slots, pos);
    forall i: nat | i < 5 && pos[i] <= 3 && FirstOfLane(farm, solo, pos, i) ensures pos[i] == SlotOf(farm[i].lane) {
      var k := Where(farm, solo, cores, supports, slots, pos, i);
      FirstIsNamed(farm, solo, cores, supports, slots, pos, k);
    }
    forall i: nat, j: nat | i < 5 && j < 5 && pos[i] <= 3 && i != solo && pos[j] > 3 ensures Ahead(farm, solo, i, j) {
      var k := Where(farm, solo, cores, supports, slots, pos, i);
      var m := Where(farm, solo, cores, supports, slots, pos, j);
    }
    forall i: nat, j: nat | i < 5 && j < 5 && pos[i] <= 3 && pos[j] <= 3
                            && !FirstOfLane(farm, solo, pos, i) && !FirstOfLane(farm, solo, pos, j)
                               && Ahead(farm, solo, i, j)
      ensures pos[i] < pos[j]
    {
      var k := Where(farm, solo, cores, supports, slots, pos, i);
      var m := Where(farm, solo, cores, supports, slots, pos, j);
      FirstIsNamed(farm, solo, cores, supports, slots, pos, k);
      FirstIsNamed(farm, solo, cores, supports, slots, pos, m);
      InOrder(farm, solo, cores, k, m);
    }
    forall r: nat, p: nat | r < 5 && p < 5 && pos[r] > 3 && pos[p] > 3 && Ahead(farm, solo, r, p)
      ensures pos[r] == if RicherIsFive(farm[r].lane, farm[p].lane) then 5 else 4
    {
      var k := Where(farm, solo, cores, supports, slots, pos, r);
      var m := Where(farm, solo, cores, supports, slots, pos, p);
      InOrder(farm, solo, supports, k, m);
    }
    if 0 <= solo < 5 {
      var k := Where(farm, solo, cores, supports, slots, pos, solo);
    }
  }

  /** The positions of a side of five by its scores and its lone mid. */
  ghost predicate Assigned(team: seq<Player>, minutes: real, pos: seq<nat>)
    requires minutes >= 10.0
  {
    |team| == |pos| == 5 && exists farm, solo ::
        Farmed(team, minutes, farm) && IsSolo(team, solo) && Assignment(farm, solo, pos)
  }

  method AssignFive(team: seq<Player>, minutes: real) returns (pos: seq<nat>)
    requires |team| == 5 && minutes >= 10.0
    ensures Assigned(team, minutes, pos)
  {
    hide Farmed, IsSolo, Divided, Slotted, Assignment, TeamWards, RicherIsFive;
    var farm, teamWards := Measure(team, minutes);
    var solo := FindSolo(team, teamWards);
    Shapes(team, minutes, farm, solo);
    var cores, supports := Divide(farm, solo);
    DividedShape(farm, solo, cores, supports);
    var slots := CoreSlots([farm[cores[0]].lane, farm[cores[1]].lane, farm[cores[2]].lane]);
    assert Lanes(farm, cores) == [farm[cores[0]].lane, farm[cores[1]].lane, farm[cores[2]].lane];
    SlotsShape(Lanes(farm, cores), slots);
    var five := Five(farm, supports);
    pos := Place(cores, supports, slots, five);
    PlacedIsAssignment(farm, solo, cores, supports, slots, pos);
  }

  method Place(cores: seq<nat>, supports: seq<nat>, slots: seq<nat>, five: nat) returns (pos: seq<nat>)
    requires |cores| == |slots| == 3 && |supports| == 2 && Within(5, cores) && Within(5, supports) && five in supports
    requires forall a, b | 0 <= a < b < 3 :: cores[a] != cores[b]
    requires supports[0] != supports[1] && forall k | 0 <= k < 3 :: cores[k] !in supports
    ensures |pos| == 5 && forall k | 0 <= k < 3 :: pos[cores[k]] == slots[k]
    ensures forall k | 0 <= k < 2 :: pos[supports[k]] == if supports[k] == five then 5 else 4
  {
    pos := [0, 0, 0, 0, 0];
    for k := 0 to 3
      invariant |pos| == 5
      invariant forall a | 0 <= a < k :: pos[cores[a]] == slots[a]
    {
      pos := pos[cores[k] := slots[k]];
    }
    pos := pos[five := 5];
    pos := pos[if five == supports[0] then supports[1] else supports[0] := 4];
  }

  lemma Shapes(team: seq<Player>, minutes: real, farm: seq<Farm>, solo: int)
    requires |team| == 5 && minutes >= 10.0 && Farmed(team, minutes, farm) && IsSolo(team, solo)
    ensures |farm| == 5 && -1 <= solo < 5
  {
  }

  lemma DividedShape(farm: seq<Farm>, solo: int, cores: seq<nat>, supports: seq<nat>)
    requires Divided(farm, solo, cores, supports)
    ensures |farm| == 5 && |cores| == 3 && |supports| == 2 && Within(5, cores) && Within(5, supports)
    ensures forall a, b | 0 <= a < b < 3 :: cores[a] != cores[b]
    ensures supports[0] != supports[1] && forall k | 0 <= k < 3 :: cores[k] !in supports
  {
  }

  lemma SlotsShape(lanes: seq<Lane>, slots: seq<nat>)
    requires Slotted(lanes, slots)
    ensures |slots| == |lanes|
  {
  }

  /** Every core but a lone mid scores at least as high as every support. */
  lemma CoresFarmMore(team: seq<Player>, farm: seq<Farm>, solo: int, pos: seq<nat>, i: nat, j: nat)
    requires |team| == |farm| == 5 && IsSolo(team, solo) && Assignment(farm, solo, pos)
    requires i < 5 && j < 5 && pos[i] <= 3 && pos[j] > 3 && !LoneMid(team, i)
    ensures farm[i].score >= farm[j].score
  {
    hide RicherIsFive, TeamWards, FirstOfLane, Permutation;
    assert Ahead(farm, solo, i, j);
  }

  // ---- the same in plain numbers

  /** n is the number of wards placed or of those bought, whichever is larger. */
  ghost predicate Warded(p: Player, n: nat) {
    n >= p.placed && n >= p.bought && (n == p.placed || n == p.bought)
  }

  /** m is the most last hits of the side at ten minutes, one at least. */
  ghost predicate MostAtTen(team: seq<Player>, m: real) {
    m >= 1.0 && (forall p | p in team :: p.lh10 as real <= m)
    && (m == 1.0 || exists p :: p in team && p.lh10 as real == m)
  }

  /** m is the most last hits of the side, one at least. */
  ghost predicate Most(team: seq<Player>, m: real) {
    m >= 1.0 && (forall p | p in team :: p.lastHits as real <= m)
    && (m == 1.0 || exists p :: p in team && p.lastHits as real == m)
  }

  lemma BestIsMost(team: seq<Player>, most10: real, most: real)
    requires MostAtTen(team, most10) && Most(team, most)
    ensures BestLh10(team) == most10 && BestLh(team) == most
  {
    BestIsSomebodys(team);
  }

  lemma CappedMeans(wards: nat, minutes: real)
    requires minutes >= 10.0
    ensures Capped(wards, minutes) == if wards as real >= minutes then 1.0 else wards as real / minutes
  {
    assert minutes / minutes == 1.0;
    if wards as real >= minutes {
      Shares(wards as real, minutes, minutes);
    } else {
      Shares(minutes, wards as real, minutes);
    }
  }

  lemma Halves(a: real, b: real)
    ensures (a + b) / 2.0 == a / 2.0 + b / 2.0
  {
  }

  lemma ScoreInNumbers(p: Player, wards: nat, most10: real, most: real, minutes: real)
    requires Warded(p, wards) && most10 >= 1.0 && most >= 1.0 && minutes >= 10.0
    ensures Score(p, most10, most, minutes) ==
            p.lh10 as real / most10 / 2.0 + p.lastHits as real / most / 2.0
            - (if wards as real >= minutes then 0.4 else 0.4 * (wards as real / minutes))
  {
    assert Wards(p) == wards;
    hide Wards, Capped, Warded;
    CappedMeans(wards, minutes);
    Halves(p.lh10 as real / most10, p.lastHits as real / most);
  }

  /** A core that is no lone mid has at least a support's half share of the best last hits at ten minutes, and half
      share of the best in all, less two fifths of a ward a minute, one at most. */
  lemma CoresShareMore(team: seq<Player>, minutes: real, pos: seq<nat>, i: nat, j: nat, most10: real, most: real,
                       wardsI: nat, wardsJ: nat)
    requires minutes >= 10.0 && Assigned(team, minutes, pos) && i < 5 && j < 5 && pos[i] <= 3 && pos[j] > 3
    requires MostAtTen(team, most10) && Most(team, most) && Warded(team[i], wardsI) && Warded(team[j], wardsJ)
    requires !LoneMid(team, i)
    ensures team[i].lh10 as real / most10 / 2.0 + team[i].lastHits as real / most / 2.0
            - (if wardsI as real >= minutes then 0.4 else 0.4 * (wardsI as real / minutes))
            >= team[j].lh10 as real / most10 / 2.0 + team[j].lastHits as real / most / 2.0
               - (if wardsJ as real >= minutes then 0.4 else 0.4 * (wardsJ as real / minutes))
  {
    hide Score, LoneMid, Assignment, Most, MostAtTen;
    var farm, solo :| Farmed(team, minutes, farm) && IsSolo(team, solo) && Assignment(farm, solo, pos);
    CoresFarmMore(team, farm, solo, pos, i, j);
    BestIsMost(team, most10, most);
    ScoreInNumbers(team[i], wardsI, most10, most, minutes);
    ScoreInNumbers(team[j], wardsJ, most10, most, minutes);
  }

  /** The lone mid: no other mid, and the side hardly warded or he did less than a quarter of it. */
  lemma LoneMidMeans(team: seq<Player>, wards: seq<nat>, i: nat)
    requires |team| == |wards| == 5 && i < 5 && forall k | 0 <= k < 5 :: Warded(team[k], wards[k])
    ensures LoneMid(team, i) <==>
            && (forall k | 0 <= k < 5 :: team[k].lane == Mid <==> k == i)
            && var all := wards[0] + wards[1] + wards[2] + wards[3] + wards[4]; all < 5 || 4 * wards[i] < all
  {
    assert forall k | 0 <= k < 5 :: Wards(team[k]) == wards[k];
    assert team[..5] == team && team[..5][..4] == team[..4] && team[..4][..3] == team[..3]
           && team[..3][..2] == team[..2] && team[..2][..1] == team[..1] && team[..1][..0] == [];
    assert TeamWards(team[..0]) == 0;
    assert TeamWards(team[..1]) == wards[0];
    assert TeamWards(team[..2]) == wards[0] + wards[1];
    assert TeamWards(team[..3]) == wards[0] + wards[1] + wards[2];
    assert TeamWards(team[..4]) == wards[0] + wards[1] + wards[2] + wards[3];
  }

  lemma LoneMidTakesTwo(team: seq<Player>, minutes: real, pos: seq<nat>, i: nat)
    requires minutes >= 10.0 && Assigned(team, minutes, pos)
    requires i < 5 && LoneMid(team, i)
    ensures pos[i] == 2
  {
    hide Score, Ahead, RicherIsFive, TeamWards;
    var farm, solo :| Farmed(team, minutes, farm) && IsSolo(team, solo) && Assignment(farm, solo, pos);
    assert solo == i;
    assert FirstOfLane(farm, solo, pos, i);
  }

  /** The only mid of a side is the 2 when the side placed or bought fewer than five wards, or he less than a quarter of
      them. */
  lemma LoneMidIsTwo(team: seq<Player>, minutes: real, pos: seq<nat>, wards: seq<nat>, i: nat)
    requires minutes >= 10.0 && Assigned(team, minutes, pos) && |wards| == 5 && i < 5
    requires forall k | 0 <= k < 5 :: Warded(team[k], wards[k]) && (team[k].lane == Mid <==> k == i)
    requires var all := wards[0] + wards[1] + wards[2] + wards[3] + wards[4]; all < 5 || 4 * wards[i] < all
    ensures pos[i] == 2
  {
    hide LoneMid, Assigned;
    assert |team| == 5 by { FiveLong(team, minutes, pos); }
    LoneMidMeans(team, wards, i);
    LoneMidTakesTwo(team, minutes, pos, i);
  }

  /** The minutes of the formula: the whole seconds, of six hundred at least. */
  lemma MinutesMean(duration: real, seconds: int)
    requires seconds as real <= duration < seconds as real + 1.0
    ensures 60.0 * Minutes(duration) == if seconds < 600 then 600.0 else seconds as real
  {
    assert duration.Floor == seconds;
    Shares(if seconds < 600 then 600.0 else seconds as real, if seconds < 600 then seconds as real else 600.0, 60.0);
    assert 600.0 / 60.0 == 10.0;
  }

  /** Player i is ahead of player k by more last hits, fewer wards or, with all of these the same, by net worth. */
  ghost predicate ClearlyAhead(a: Player, b: Player, minutes: real) {
    FarmedMore(a, b, minutes)
    || (a.lh10 == b.lh10 && a.lastHits == b.lastHits && a.placed == b.placed && a.bought == b.bought
        && a.worth > b.worth)
  }

  lemma ClearlyAheadIsAhead(team: seq<Player>, minutes: real, farm: seq<Farm>, solo: int, i: nat, j: nat)
    requires minutes >= 10.0 && Farmed(team, minutes, farm) && i < |team| && j < |team|
    requires ClearlyAhead(team[i], team[j], minutes)
    ensures Ahead(farm, solo, i, j)
  {
    hide Score, FarmedMore;
    if FarmedMore(team[i], team[j], minutes) {
      FarmedMoreScores(team[i], team[j], BestLh10(team), BestLh(team), minutes);
    } else {
      SameScore(team[i], team[j], BestLh10(team), BestLh(team), minutes);
    }
  }

  lemma SameScore(a: Player, b: Player, bestLh10: real, bestLh: real, minutes: real)
    requires bestLh10 >= 1.0 && bestLh >= 1.0 && minutes >= 10.0
    requires a.lh10 == b.lh10 && a.lastHits == b.lastHits && a.placed == b.placed && a.bought == b.bought
    ensures Score(a, bestLh10, bestLh, minutes) == Score(b, bestLh10, bestLh, minutes)
  {
  }

  /** The core who is clearly ahead of every other core of his lane has the lane's position: mid the 2, the safe lane
      the 1, the off lane the 3. */
  lemma LaneDecidesCore(team: seq<Player>, minutes: real, pos: seq<nat>, i: nat)
    requires minutes >= 10.0 && Assigned(team, minutes, pos) && i < 5 && pos[i] <= 3
    requires forall j | 0 <= j < 5 && j != i && pos[j] <= 3 && team[j].lane == team[i].lane ::
             ClearlyAhead(team[i], team[j], minutes)
    ensures team[i].lane == Mid ==> pos[i] == 2
    ensures team[i].lane == SafeLane ==> pos[i] == 1
    ensures team[i].lane == OffLane ==> pos[i] == 3
  {
    hide Score, RicherIsFive, Ahead, IsSolo, ClearlyAhead;
    var farm: seq<Farm>, solo: int :| Farmed(team, minutes, farm) && IsSolo(team, solo) && Assignment(farm, solo, pos);
    forall j: nat | j < 5 && j != i && pos[j] <= 3 && farm[j].lane == farm[i].lane ensures Ahead(farm, solo, i, j) {
      ClearlyAheadIsAhead(team, minutes, farm, solo, i, j);
    }
    if team[i].lane != Elsewhere { assert FirstOfLane(farm, solo, pos, i); }
  }

  /** No lane, or another core is clearly ahead on it. */
  ghost predicate Unnamed(team: seq<Player>, minutes: real, pos: seq<nat>, i: nat)
    requires |team| == |pos| == 5 && i < 5
  {
    team[i].lane == Elsewhere || exists k: nat :: TakesLane(team, minutes, pos, k, i)
  }

  ghost predicate TakesLane(team: seq<Player>, minutes: real, pos: seq<nat>, k: nat, i: nat)
    requires |team| == |pos| == 5 && i < 5
  {
    k < 5 && k != i && pos[k] <= 3 && team[k].lane == team[i].lane && ClearlyAhead(team[k], team[i], minutes)
  }

  lemma UnnamedIsNotFirst(team: seq<Player>, minutes: real, farm: seq<Farm>, solo: int, pos: seq<nat>, i: nat)
    requires minutes >= 10.0 && Farmed(team, minutes, farm) && |team| == |pos| == 5 && i < 5
    requires Unnamed(team, minutes, pos, i)
    ensures |farm| == 5 && !FirstOfLane(farm, solo, pos, i)
  {
    hide Score, Ahead, ClearlyAhead;
    if team[i].lane != Elsewhere {
      var k: nat :| TakesLane(team, minutes, pos, k, i);
      ClearlyAheadIsAhead(team, minutes, farm, solo, k, i);
      OneIsAhead(farm, solo, k, i);
    }
  }

  /** Of two cores that no lane names the one clearly ahead has the lower position. */
  lemma AheadIsLower(team: seq<Player>, minutes: real, pos: seq<nat>, i: nat, j: nat)
    requires minutes >= 10.0 && Assigned(team, minutes, pos) && i < 5 && j < 5 && pos[i] <= 3 && pos[j] <= 3
    requires Unnamed(team, minutes, pos, i) && Unnamed(team, minutes, pos, j)
    requires ClearlyAhead(team[i], team[j], minutes)
    ensures pos[i] < pos[j]
  {
    hide Score, RicherIsFive, Ahead, IsSolo, ClearlyAhead, Permutation, FirstOfLane, Unnamed;
    var farm: seq<Farm>, solo: int :| Farmed(team, minutes, farm) && IsSolo(team, solo) && Assignment(farm, solo, pos);
    ClearlyAheadIsAhead(team, minutes, farm, solo, i, j);
    UnnamedIsNotFirst(team, minutes, farm, solo, pos, i);
    UnnamedIsNotFirst(team, minutes, farm, solo, pos, j);
  }

  /** The 5 among two supports: the one who alone stood the safe lane; if the safe lane does not tell, the mate of the
      one who alone stood the off lane; if neither does, the one the other is clearly ahead of. */
  lemma LaneDecidesFive(team: seq<Player>, minutes: real, pos: seq<nat>, i: nat, j: nat)
    requires minutes >= 10.0 && Assigned(team, minutes, pos) && i < 5 && j < 5 && i != j && pos[i] > 3 && pos[j] > 3
    ensures team[i].lane == SafeLane && team[j].lane != SafeLane ==> pos[i] == 5 && pos[j] == 4
    ensures team[i].lane != SafeLane && team[j].lane != SafeLane && team[i].lane == OffLane && team[j].lane != OffLane
            ==> pos[i] == 4 && pos[j] == 5
    ensures ((team[i].lane == SafeLane) == (team[j].lane == SafeLane))
            && ((team[i].lane == OffLane) == (team[j].lane == OffLane)) && ClearlyAhead(team[i], team[j], minutes)
            ==> pos[i] == 4 && pos[j] == 5
  {
    hide Score, Ahead, IsSolo, ClearlyAhead, FirstOfLane;
    var farm: seq<Farm>, solo: int :| Farmed(team, minutes, farm) && IsSolo(team, solo) && Assignment(farm, solo, pos);
    OneIsAhead(farm, solo, i, j);
    if ClearlyAhead(team[i], team[j], minutes) { ClearlyAheadIsAhead(team, minutes, farm, solo, i, j); }
  }

  // ---- who farmed more and warded less comes first

  lemma Shares(a: real, b: real, m: real)
    requires a >= b && m >= 1.0
    ensures a / m >= b / m && (a > b ==> a / m > b / m)
  {
    assert a / m - b / m == (a - b) / m;
  }

  /** Whoever counts b's wards, placed or bought, finds at least n of them. */
  predicate WardedAtLeast(b: Player, n: nat) {
    b.placed >= n || b.bought >= n
  }

  /** At least as many last hits at ten minutes and in all, at most as many wards, and one of them strictly; beyond a
      ward a minute more wards cost nothing. */
  predicate FarmedMore(a: Player, b: Player, minutes: real) {
    && a.lh10 >= b.lh10 && a.lastHits >= b.lastHits && WardedAtLeast(b, a.placed) && WardedAtLeast(b, a.bought)
    && (a.lh10 > b.lh10 || a.lastHits > b.lastHits || WardedLess(a, b, minutes))
  }

  predicate WardedLess(a: Player, b: Player, minutes: real) {
    && WardedAtLeast(b, a.placed + 1) && WardedAtLeast(b, a.bought + 1)
    && a.placed as real < minutes && a.bought as real < minutes
  }

  /** The best of a side is some player's, or one. */
  lemma {:induction false} BestIsSomebodys(team: seq<Player>)
    ensures BestLh10(team) == 1.0 || exists p :: p in team && p.lh10 as real == BestLh10(team)
    ensures BestLh(team) == 1.0 || exists p :: p in team && p.lastHits as real == BestLh(team)
  {
    if team != [] {
      var n := |team| - 1;
      BestIsSomebodys(team[..n]);
      assert team == team[..n] + [team[n]];
      assert team[n] in team && forall p | p in team[..n] :: p in team;
    }
  }

  lemma WardsCompare(a: Player, b: Player, minutes: real)
    requires WardedAtLeast(b, a.placed) && WardedAtLeast(b, a.bought)
    ensures Wards(a) <= Wards(b)
    ensures WardedLess(a, b, minutes) ==> Wards(a) < Wards(b) && Wards(a) as real < minutes
  {
  }

  lemma CappedGrows(a: nat, b: nat, minutes: real)
    requires minutes >= 10.0 && a <= b
    ensures Capped(a, minutes) <= Capped(b, minutes)
    ensures a < b && a as real < minutes ==> Capped(a, minutes) < Capped(b, minutes)
  {
    Shares(b as real, a as real, minutes);
    assert minutes / minutes == 1.0;
    if a as real < minutes { Shares(minutes, a as real, minutes); }
  }

  lemma FarmedMoreScores(a: Player, b: Player, bestLh10: real, bestLh: real, minutes: real)
    requires bestLh10 >= 1.0 && bestLh >= 1.0 && minutes >= 10.0 && FarmedMore(a, b, minutes)
    ensures Score(a, bestLh10, bestLh, minutes) > Score(b, bestLh10, bestLh, minutes)
  {
    WardsCompare(a, b, minutes);
    hide Wards, Capped;
    Shares(a.lh10 as real, b.lh10 as real, bestLh10);
    Shares(a.lastHits as real, b.lastHits as real, bestLh);
    CappedGrows(Wards(a), Wards(b), minutes);
  }

  /** Nobody who farmed more and warded less than a core is a support, unless that core is the lone mid. */
  lemma MoreFarmIsCore(team: seq<Player>, minutes: real, pos: seq<nat>, i: nat, j: nat)
    requires minutes >= 10.0 && Assigned(team, minutes, pos) && i < 5 && j < 5 && FarmedMore(team[i], team[j], minutes)
    ensures pos[i] > 3 && pos[j] <= 3 ==> LoneMid(team, j)
  {
    hide Score, LoneMid, RicherIsFive, FirstOfLane, FarmedMore, Assignment;
    var farm, solo :| Farmed(team, minutes, farm) && IsSolo(team, solo) && Assignment(farm, solo, pos);
    FarmedMoreScores(team[i], team[j], BestLh10(team), BestLh(team), minutes);
    SupportsScoreLess(farm, solo, pos, i, j);
  }

  lemma SupportsScoreLess(farm: seq<Farm>, solo: int, pos: seq<nat>, i: nat, j: nat)
    requires |farm| == 5 && Assignment(farm, solo, pos) && i < 5 && j < 5
    ensures |pos| == 5 && (pos[i] > 3 && pos[j] <= 3 && j != solo ==> farm[j].score >= farm[i].score)
  {
    hide RicherIsFive, FirstOfLane;
    if pos[i] > 3 && pos[j] <= 3 && j != solo { assert Ahead(farm, solo, j, i); }
  }

  // ---- the rules leave no choice

  lemma Holder(pos: seq<nat>, v: nat) returns (i: nat)
    requires Permutation(pos) && 1 <= v <= 5
    ensures i < 5 && pos[i] == v
  {
    i := if pos[0] == v then 0 else if pos[1] == v then 1 else if pos[2] == v then 2 else if pos[3] == v then 3 else 4;
  }

  function Core(pos: seq<nat>, i: nat): nat
    requires i < |pos|
  {
    if pos[i] <= 3 then 1 else 0
  }

  lemma ThreeCores(pos: seq<nat>)
    requires Permutation(pos)
    ensures Core(pos, 0) + Core(pos, 1) + Core(pos, 2) + Core(pos, 3) + Core(pos, 4) == 3
  {
    var a := Holder(pos, 4);
    var b := Holder(pos, 5);
    assert forall k: nat | k < 5 :: Core(pos, k) == if k == a || k == b then 0 else 1;
  }

  lemma SameCores(farm: seq<Farm>, solo: int, p: seq<nat>, q: seq<nat>, i: nat)
    requires |farm| == 5 && Assignment(farm, solo, p) && Assignment(farm, solo, q)
    requires i < 5 && p[i] <= 3
    ensures q[i] <= 3
  {
    hide Ahead, RicherIsFive, FirstOfLane, SlotOf;
    ThreeCores(p);
    ThreeCores(q);
    if q[i] > 3 {
      var j: nat :| j < 5 && p[j] > 3 && q[j] <= 3;
      assert Ahead(farm, solo, i, j) && Ahead(farm, solo, j, i);
      OneIsAhead(farm, solo, i, j);
    }
  }

  lemma OneIsAhead(farm: seq<Farm>, solo: int, i: nat, j: nat)
    requires i < |farm| && j < |farm| && i != j
    ensures Ahead(farm, solo, i, j) <==> !Ahead(farm, solo, j, i)
  {
    assert Rank(solo, i) != Rank(solo, j);
  }

  lemma SameFirst(farm: seq<Farm>, solo: int, p: seq<nat>, q: seq<nat>, i: nat)
    requires |farm| == |p| == |q| == 5 && i < 5 && forall k: nat | k < 5 :: p[k] <= 3 <==> q[k] <= 3
    ensures FirstOfLane(farm, solo, p, i) == FirstOfLane(farm, solo, q, i)
  {
    hide Ahead;
  }

  /** A core position has the same holder once the lower ones have. */
  lemma SameCore(farm: seq<Farm>, solo: int, p: seq<nat>, q: seq<nat>, v: nat)
    requires |farm| == 5 && Assignment(farm, solo, p) && Assignment(farm, solo, q) && 1 <= v <= 3
    requires forall k: nat | k < 5 :: p[k] <= 3 <==> q[k] <= 3
    requires forall k: nat | k < 5 && (p[k] < v || q[k] < v) :: p[k] == q[k]
    ensures forall k: nat | k < 5 && (p[k] <= v || q[k] <= v) :: p[k] == q[k]
  {
    hide Ahead, RicherIsFive, FirstOfLane, SlotOf;
    var i := Holder(p, v);
    var j := Holder(q, v);
    if i != j {
      SameFirst(farm, solo, p, q, i);
      SameFirst(farm, solo, p, q, j);
      OneIsAhead(farm, solo, i, j);
    }
  }

  lemma SameSupports(farm: seq<Farm>, solo: int, p: seq<nat>, q: seq<nat>)
    requires |farm| == 5 && Assignment(farm, solo, p) && Assignment(farm, solo, q)
    requires forall k: nat | k < 5 :: p[k] <= 3 <==> q[k] <= 3
    ensures forall k: nat | k < 5 && p[k] > 3 :: p[k] == q[k]
  {
    hide Ahead, RicherIsFive, FirstOfLane, SlotOf;
    var i := Holder(p, 4);
    var j := Holder(p, 5);
    OneIsAhead(farm, solo, i, j);
    assert p[i] != p[j] && q[i] != q[j];
  }

  /** The farm, the lanes and the lone mid decide every position. */
  lemma AssignmentIsUnique(farm: seq<Farm>, solo: int, p: seq<nat>, q: seq<nat>)
    requires |farm| == 5 && Assignment(farm, solo, p) && Assignment(farm, solo, q)
    ensures p == q
  {
    hide Assignment;
    AssignmentShape(farm, solo, p);
    AssignmentShape(farm, solo, q);
    forall k: nat | k < 5 ensures |p| == |q| == 5 && (p[k] <= 3 <==> q[k] <= 3) && p[k] >= 1 && q[k] >= 1 {
      if p[k] <= 3 { SameCores(farm, solo, p, q, k); }
      if q[k] <= 3 { SameCores(farm, solo, q, p, k); }
    }
    SameCore(farm, solo, p, q, 1);
    SameCore(farm, solo, p, q, 2);
    SameCore(farm, solo, p, q, 3);
    SameSupports(farm, solo, p, q);
    assert forall k: nat | k < |p| :: p[k] == q[k];
  }

  lemma AssignmentShape(farm: seq<Farm>, solo: int, pos: seq<nat>)
    requires |farm| == 5 && Assignment(farm, solo, pos)
    ensures |pos| == 5 && forall k: nat | k < 5 :: pos[k] >= 1
  {
  }

  /** ... so a side of five has one assignment. */
  lemma AssignedIsUnique(team: seq<Player>, minutes: real, p: seq<nat>, q: seq<nat>)
    requires minutes >= 10.0 && Assigned(team, minutes, p) && Assigned(team, minutes, q)
    ensures p == q
  {
    hide Score, Assignment, TeamWards;
    var farm, solo :| Farmed(team, minutes, farm) && IsSolo(team, solo) && Assignment(farm, solo, p);
    var farm', solo' :| Farmed(team, minutes, farm') && IsSolo(team, solo') && Assignment(farm', solo', q);
    assert farm == farm';
    assert solo == solo';
    AssignmentIsUnique(farm, solo, p, q);
  }

  // ---- both sides

  /** The slots of a side's heroes. */
  function Team(players: seq<Player>, radiant: bool): seq<nat> {
    if players == [] then []
    else
      var n := |players| - 1;
      Team(players[..n], radiant) + if players[n].radiant == radiant && players[n].hero > 0 then [n] else []
  }

  lemma {:induction false} TeamSpec(players: seq<Player>, radiant: bool)
    ensures Within(|players|, Team(players, radiant))
    ensures forall a, b | 0 <= a < b < |Team(players, radiant)| :: Team(players, radiant)[a] < Team(players, radiant)[b]
    ensures forall i: nat :: i in Team(players, radiant) <==>
            i < |players| && players[i].radiant == radiant && players[i].hero > 0
  {
    if players != [] { TeamSpec(players[..|players| - 1], radiant); }
  }

  /** The slots by last hits, most first, then by slot. */
  ghost predicate ByLastHits(players: seq<Player>, order: seq<nat>) {
    && Within(|players|, order)
    && forall a, b | 0 <= a < b < |order| ::
         players[order[a]].lastHits > players[order[b]].lastHits
         || (players[order[a]].lastHits == players[order[b]].lastHits && order[a] < order[b])
  }

  /** A side of five is an assignment; any other side is ranked by last hits, from the fifth on all fives. */
  ghost predicate SidePlaced(players: seq<Player>, minutes: real, radiant: bool, pos: map<nat, nat>)
    requires minutes >= 10.0
  {
    var team := Team(players, radiant);
    && (forall i | i in team :: i in pos)
    && if |team| == 5 then exists p :: FivePlaced(players, minutes, team, p, pos)
       else exists order :: RankPlaced(players, team, order, pos)
  }

  ghost predicate FivePlaced(players: seq<Player>, minutes: real, team: seq<nat>, p: seq<nat>, pos: map<nat, nat>)
    requires minutes >= 10.0
  {
    && |team| == |p| == 5 && Within(|players|, team) && Assigned(Mates(players, team), minutes, p)
    && forall k | 0 <= k < 5 :: team[k] in pos && pos[team[k]] == p[k]
  }

  ghost predicate RankPlaced(players: seq<Player>, team: seq<nat>, order: seq<nat>, pos: map<nat, nat>) {
    && ByLastHits(players, order) && |order| == |team| && (forall i: nat :: i in order <==> i in team)
    && forall k | 0 <= k < |order| :: order[k] in pos && pos[order[k]] == if k < 5 then k + 1 else 5
  }

  function Mates(players: seq<Player>, team: seq<nat>): seq<Player>
    requires Within(|players|, team)
  {
    seq(|team|, k requires 0 <= k < |team| => players[team[k]])
  }

  method SelectTeam(players: seq<Player>, radiant: bool) returns (team: seq<nat>)
    ensures team == Team(players, radiant)
  {
    team := [];
    for i := 0 to |players|
      invariant team == Team(players[..i], radiant)
    {
      assert players[..i + 1][..i] == players[..i];
      if players[i].radiant == radiant && players[i].hero > 0 {
        team := team + [i];
      }
    }
    assert players[..|players|] == players;
  }

  method RankTeam(players: seq<Player>, team: seq<nat>) returns (order: seq<nat>)
    requires Within(|players|, team) && forall a, b | 0 <= a < b < |team| :: team[a] < team[b]
    ensures ByLastHits(players, order) && |order| == |team| && (forall i: nat :: i in order <==> i in team)
  {
    hide StableSort;
    var fewer := (i: nat) => if i < |players| then -(players[i].lastHits as real) else 0.0;
    ghost var below := (i: nat, j: nat) => i < j;
    order := StableSort(team, fewer);
    StableSortSpec(team, fewer, below);
    forall a | 0 <= a < |order| ensures order[a] < |players| {
      assert order[a] in order;
    }
  }

  /** The whole seconds of the game in minutes, ten at least. */
  function Minutes(duration: real): (minutes: real)
    ensures minutes >= 10.0
  {
    var m := duration.Floor as real / 60.0;
    if m < 10.0 then 10.0 else m
  }

  method AssignPositions(players: seq<Player>, duration: real) returns (pos: map<nat, nat>)
    ensures SidePlaced(players, Minutes(duration), true, pos) && SidePlaced(players, Minutes(duration), false, pos)
    ensures forall i: nat | i in pos :: i < |players| && players[i].hero > 0
  {
    hide SidePlaced, Minutes;
    var minutes := Minutes(duration);
    pos := AssignSide(players, minutes, true, map[]);
    var both := AssignSide(players, minutes, false, pos);
    KeepsSide(players, minutes, true, pos, both);
    pos := both;
  }

  method AssignSide(players: seq<Player>, minutes: real, radiant: bool, pos0: map<nat, nat>)
                    returns (pos: map<nat, nat>)
    requires minutes >= 10.0
    ensures SidePlaced(players, minutes, radiant, pos)
    ensures forall i: nat | i !in Team(players, radiant) ::
            (i in pos <==> i in pos0) && (i in pos0 ==> pos[i] == pos0[i])
    ensures forall i: nat | i in pos :: i in pos0 || (i < |players| && players[i].hero > 0)
  {
    hide Team, Assigned, ByLastHits;
    var team := SelectTeam(players, radiant);
    TeamSpec(players, radiant);
    if |team| != 5 {
      pos := PlaceRanked(players, team, pos0);
    } else {
      pos := PlaceFive(players, minutes, team, pos0);
    }
  }

  /** Nothing but the team's positions changes. */
  ghost predicate OnlyTeam(team: seq<nat>, pos0: map<nat, nat>, pos: map<nat, nat>) {
    && (forall i: nat | i !in team :: (i in pos <==> i in pos0) && (i in pos0 ==> pos[i] == pos0[i]))
    && forall i: nat | i in pos :: i in pos0 || i in team
  }

  lemma OneOfTeam(team: seq<nat>, pos0: map<nat, nat>, pos: map<nat, nat>, i: nat, v: nat)
    requires OnlyTeam(team, pos0, pos) && i in team
    ensures OnlyTeam(team, pos0, pos[i := v])
  {
  }

  method PlaceRanked(players: seq<Player>, team: seq<nat>, pos0: map<nat, nat>) returns (pos: map<nat, nat>)
    requires Within(|players|, team) && forall a, b | 0 <= a < b < |team| :: team[a] < team[b]
    ensures (exists order :: RankPlaced(players, team, order, pos)) && OnlyTeam(team, pos0, pos)
    ensures forall i | i in team :: i in pos
  {
    hide OnlyTeam, ByLastHits;
    pos := pos0;
    assert OnlyTeam(team, pos0, pos) by { Untouched(team, pos0); }
    var order := RankTeam(players, team);
    RankDistinct(players, order);
    for k := 0 to |order|
      invariant forall a | 0 <= a < k :: order[a] in pos && pos[order[a]] == if a < 5 then a + 1 else 5
      invariant OnlyTeam(team, pos0, pos)
    {
      assert order[k] in order;
      OneOfTeam(team, pos0, pos, order[k], if k + 1 > 5 then 5 else k + 1);
      pos := pos[order[k] := if k + 1 > 5 then 5 else k + 1];
    }
    assert RankPlaced(players, team, order, pos);
    forall i: nat | i in team ensures i in pos {
      assert i in order;
    }
  }

  method PlaceFive(players: seq<Player>, minutes: real, team: seq<nat>, pos0: map<nat, nat>)
                   returns (pos: map<nat, nat>)
    requires minutes >= 10.0 && |team| == 5 && Within(|players|, team) && forall a, b | 0 <= a < b < 5 ::
             team[a] < team[b]
    ensures (exists p :: FivePlaced(players, minutes, team, p, pos)) && OnlyTeam(team, pos0, pos)
    ensures forall i | i in team :: i in pos
  {
    hide OnlyTeam, Assigned;
    pos := pos0;
    assert OnlyTeam(team, pos0, pos) by { Untouched(team, pos0); }
    var p := AssignFive(Mates(players, team), minutes);
    FiveLong(Mates(players, team), minutes, p);
    for k := 0 to 5
      invariant forall a | 0 <= a < k :: team[a] in pos && pos[team[a]] == p[a]
      invariant OnlyTeam(team, pos0, pos)
    {
      OneOfTeam(team, pos0, pos, team[k], p[k]);
      pos := pos[team[k] := p[k]];
    }
    assert FivePlaced(players, minutes, team, p, pos);
  }

  lemma Untouched(team: seq<nat>, pos0: map<nat, nat>)
    ensures OnlyTeam(team, pos0, pos0)
  {
  }

  lemma FiveLong(team: seq<Player>, minutes: real, p: seq<nat>)
    requires minutes >= 10.0 && Assigned(team, minutes, p)
    ensures |p| == |team| == 5
  {
  }

  lemma RankDistinct(players: seq<Player>, order: seq<nat>)
    requires ByLastHits(players, order)
    ensures forall a, b | 0 <= a < b < |order| :: order[a] != order[b]
  {
  }

  /** Placing the other side does not touch this one. */
  lemma KeepsSide(players: seq<Player>, minutes: real, radiant: bool, pos: map<nat, nat>, both: map<nat, nat>)
    requires minutes >= 10.0 && SidePlaced(players, minutes, radiant, pos)
    requires forall i: nat | i !in Team(players, !radiant) ::
             (i in both <==> i in pos) && (i in pos ==> both[i] == pos[i])
    ensures SidePlaced(players, minutes, radiant, both)
  {
    hide Team, Assigned, ByLastHits;
    TeamSpec(players, radiant);
    TeamSpec(players, !radiant);
    var team := Team(players, radiant);
    if |team| == 5 {
      var p :| FivePlaced(players, minutes, team, p, pos);
      FiveLong(Mates(players, team), minutes, p);
      forall k | 0 <= k < 5 ensures team[k] in both && both[team[k]] == p[k] {
        assert team[k] in team;
      }
      assert FivePlaced(players, minutes, team, p, both);
    } else {
      var order :| RankPlaced(players, team, order, pos);
      forall k | 0 <= k < |order| ensures order[k] in both && both[order[k]] == if k < 5 then k + 1 else 5 {
        assert order[k] in order;
      }
      assert RankPlaced(players, team, order, both);
    }
  }
}
