/** Assist events rebuilt from the scoreboard's assist counters (main.go, assistEventsFromScoreboard). */
module Assists {
  import opened Matching
  import opened Sorting
  import opened Wrappers

  /** A hero's death; assists: the players the combat log lists, later those the scoreboard credited. */
  datatype Death = Death(victim: nat, t: real, assists: seq<nat>)

  /** target -1: the victim is unknown. */
  datatype Event = Event(t: real, target: int)

  /** The side of each player slot; None: nobody plays there. */
  type Sides = seq<Option<bool>>

  const LAG := 0.5

  function Dist(d: Death, t: real): real {
    if d.t < t then t - d.t else d.t - t
  }

  predicate Enemies(side: Sides, p: nat, v: nat) {
    p < |side| && v < |side| && p != v && side[p].Some? && side[v].Some? && side[p] != side[v]
  }

  /** An enemy death close enough to a rise of player p's counter at t. */
  predicate Near(deaths: seq<Death>, side: Sides, p: nat, t: real, d: nat) {
    d < |deaths| && Enemies(side, p, deaths[d].victim) && Dist(deaths[d], t) <= LAG
  }

  // ---- the deaths that list the player

  ghost predicate ListedPair(deaths: seq<Death>, side: Sides, p: nat, times: seq<real>, q: Pair) {
    && q.left < |times| && Near(deaths, side, p, times[q.left], q.right)
    && p in deaths[q.right].assists && q.score == Dist(deaths[q.right], times[q.left])
  }

  method ListedPairs(deaths: seq<Death>, side: Sides, p: nat, times: seq<real>) returns (pairs: seq<Pair>)
    ensures forall q :: q in pairs <==> ListedPair(deaths, side, p, times, q)
  {
    pairs := [];
    for d := 0 to |deaths|
      invariant forall q :: q in pairs <==> ListedPair(deaths, side, p, times, q) && q.right < d
    {
      if Enemies(side, p, deaths[d].victim) && p in deaths[d].assists {
        ghost var before := pairs;
        for k := 0 to |times|
          invariant forall q :: q in pairs <==>
                      q in before || (ListedPair(deaths, side, p, times, q) && q.right == d && q.left < k)
        {
          if Dist(deaths[d], times[k]) <= LAG {
            pairs := pairs + [Pair(k, d, Dist(deaths[d], times[k]))];
          }
        }
      }
    }
  }

  // ---- the only death left in the nearest tick

  predicate Free(deaths: seq<Death>, side: Sides, p: nat, t: real, taken: set<nat>, d: nat) {
    Near(deaths, side, p, t, d) && d !in taken
  }

  /** The nearest free death, the first listed one of several. */
  ghost predicate Closest(deaths: seq<Death>, side: Sides, p: nat, t: real, taken: set<nat>, d: nat) {
    && Free(deaths, side, p, t, taken, d)
    && forall e: nat | Free(deaths, side, p, t, taken, e) ::
         Dist(deaths[d], t) < Dist(deaths[e], t) || (Dist(deaths[d], t) == Dist(deaths[e], t) && d <= e)
  }

  ghost predicate Alone(deaths: seq<Death>, side: Sides, p: nat, t: real, taken: set<nat>, d: nat)
    requires d < |deaths|
  {
    forall e: nat | Free(deaths, side, p, t, taken, e) && e != d :: deaths[e].t != deaths[d].t
  }

  /** What a rise that no listed death took gets: the closest free death when it is the only one of its tick. */
  ghost predicate Picks(deaths: seq<Death>, side: Sides, p: nat, t: real, taken: set<nat>, res: Option<nat>) {
    match res
    case Some(d) => Closest(deaths, side, p, t, taken, d) && Alone(deaths, side, p, t, taken, d)
    case None => forall d | Closest(deaths, side, p, t, taken, d) :: !Alone(deaths, side, p, t, taken, d)
  }

  /** The free deaths among the first n that share the nearest one's tick. */
  ghost predicate TickOf(deaths: seq<Death>, side: Sides, p: nat, t: real, taken: set<nat>, n: nat, tick: seq<nat>)
    requires n <= |deaths|
  {
    && (forall i | 0 <= i < |tick| :: tick[i] < n && Free(deaths, side, p, t, taken, tick[i]))
    && (forall i, j | 0 <= i < j < |tick| :: tick[i] < tick[j])
    && (tick == [] ==> forall e: nat | e < n :: !Free(deaths, side, p, t, taken, e))
    && (tick != [] ==> forall e: nat | e < n && Free(deaths, side, p, t, taken, e) ::
          && (Dist(deaths[tick[0]], t) < Dist(deaths[e], t)
             || (Dist(deaths[tick[0]], t) == Dist(deaths[e], t) && tick[0] <= e))
          && (deaths[e].t == deaths[tick[0]].t ==> e in tick))
    && (forall i | 0 <= i < |tick| :: deaths[tick[i]].t == deaths[tick[0]].t)
  }

  lemma TickStep(deaths: seq<Death>, side: Sides, p: nat, t: real, taken: set<nat>, d: nat, tick: seq<nat>,
                 next: seq<nat>)
    requires d < |deaths| && TickOf(deaths, side, p, t, taken, d, tick) && Free(deaths, side, p, t, taken, d)
    requires var base := if |tick| > 0 && Dist(deaths[d], t) < Dist(deaths[tick[0]], t) then [] else tick;
             next == if |base| == 0 || deaths[d].t == deaths[base[0]].t then base + [d] else base
    ensures TickOf(deaths, side, p, t, taken, d + 1, next)
  {
    hide Near, Free;
  }

  lemma TickSkip(deaths: seq<Death>, side: Sides, p: nat, t: real, taken: set<nat>, d: nat, tick: seq<nat>)
    requires d < |deaths| && TickOf(deaths, side, p, t, taken, d, tick) && !Free(deaths, side, p, t, taken, d)
    ensures TickOf(deaths, side, p, t, taken, d + 1, tick)
  {
    hide Free;
  }

  lemma TickInRange(deaths: seq<Death>, side: Sides, p: nat, t: real, taken: set<nat>, d: nat, tick: seq<nat>)
    requires d <= |deaths| && TickOf(deaths, side, p, t, taken, d, tick)
    ensures forall i | 0 <= i < |tick| :: tick[i] < |deaths|
  {
    hide Free;
  }

  /** The tick's only death is the pick; two of them rule each other out. */
  lemma TickDecides(deaths: seq<Death>, side: Sides, p: nat, t: real, taken: set<nat>, tick: seq<nat>)
    requires TickOf(deaths, side, p, t, taken, |deaths|, tick)
    ensures Picks(deaths, side, p, t, taken, if |tick| == 1 then Some(tick[0]) else None)
  {
    hide Enemies, Dist;
    if tick != [] {
      assert Closest(deaths, side, p, t, taken, tick[0]);
      if |tick| > 1 {
        assert Free(deaths, side, p, t, taken, tick[1]) && tick[1] != tick[0];
      }
    }
  }

  method Tick(deaths: seq<Death>, side: Sides, p: nat, t: real, taken: set<nat>) returns (res: Option<nat>)
    ensures Picks(deaths, side, p, t, taken, res)
  {
    hide Near, Free, TickOf, Picks;
    var tick: seq<nat> := [];
    assert TickOf(deaths, side, p, t, taken, 0, []) by { EmptyTick(deaths, side, p, t, taken); }
    for d := 0 to |deaths|
      invariant TickOf(deaths, side, p, t, taken, d, tick)
    {
      TickInRange(deaths, side, p, t, taken, d, tick);
      if Free(deaths, side, p, t, taken, d) {
        ghost var before := tick;
        if |tick| > 0 && Dist(deaths[d], t) < Dist(deaths[tick[0]], t) {
          tick := [];
        }
        if |tick| == 0 || deaths[d].t == deaths[tick[0]].t {
          tick := tick + [d];
        }
        TickStep(deaths, side, p, t, taken, d, before, tick);
      } else {
        TickSkip(deaths, side, p, t, taken, d, tick);
      }
    }
    TickDecides(deaths, side, p, t, taken, tick);
    res := if |tick| == 1 then Some(tick[0]) else None;
  }

  lemma EmptyTick(deaths: seq<Death>, side: Sides, p: nat, t: real, taken: set<nat>)
    ensures TickOf(deaths, side, p, t, taken, 0, [])
  {
  }

  // ---- one player's rises

  ghost predicate IsListed(deaths: seq<Death>, side: Sides, p: nat, times: seq<real>, listed: Partners) {
    && |listed| == |times|
    && (forall k: nat, d: nat | k < |listed| && listed[k] == Some(d) ::
          Near(deaths, side, p, times[k], d) && p in deaths[d].assists)
    && (forall j, k | 0 <= j < k < |listed| && listed[j].Some? :: listed[k] != listed[j])
  }

  /** A rise and a death that lists the player, close in time: they are matched, or one of them went to a partner at
      least as close. */
  ghost predicate Content(deaths: seq<Death>, times: seq<real>, listed: Partners, k: nat, d: nat)
    requires |listed| == |times| && k < |times| && d < |deaths|
  {
    exists j: nat, e: nat :: MatchedWith(listed, j, e) && (j == k || e == d)
                             && e < |deaths| && Dist(deaths[e], times[j]) <= Dist(deaths[d], times[k])
  }

  ghost predicate MatchedWith(got: Partners, k: nat, d: nat) {
    k < |got| && got[k] == Some(d)
  }

  ghost predicate ListedFirst(deaths: seq<Death>, side: Sides, p: nat, times: seq<real>, listed: Partners) {
    && IsListed(deaths, side, p, times, listed)
    && forall k: nat, d: nat | k < |times| && Near(deaths, side, p, times[k], d) && p in deaths[d].assists ::
         Content(deaths, times, listed, k, d)
  }

  ghost function Values(got: Partners, k: nat): set<nat>
    requires k <= |got|
  {
    set j | 0 <= j < k && got[j].Some? :: got[j].value
  }

  lemma ValuesAppend(got: Partners, res: Option<nat>)
    ensures forall k | 0 <= k <= |got| :: Values(got + [res], k) == Values(got, k)
    ensures Values(got + [res], |got| + 1) == Values(got, |got|) + if res.Some? then {res.value} else {}
  {
    var after := got + [res];
    forall k | 0 <= k <= |got| ensures Values(after, k) == Values(got, k) {
      assert forall j | 0 <= j < k :: after[j] == got[j];
    }
    assert after[|got|] == res;
    forall x | x in Values(got, |got|) ensures x in Values(after, |after|) {
      var j :| 0 <= j < |got| && got[j].Some? && got[j].value == x;
      assert after[j] == got[j];
    }
    if res.Some? { assert res.value in Values(after, |after|); }
  }

  /** The deaths taken when the k-th rise is looked at. */
  ghost function Taken(listed: Partners, got: Partners, k: nat): set<nat>
    requires k <= |got|
  {
    Values(listed, |listed|) + Values(got, k)
  }

  /** Where the first |got| rises went: to the death that lists the player, if one took the rise, else to the only
      death left in the nearest tick. */
  ghost predicate InTurn(deaths: seq<Death>, side: Sides, p: nat, times: seq<real>, listed: Partners, got: Partners)
    requires |got| <= |times| == |listed|
  {
    forall k: nat | k < |got| ::
      if listed[k].Some? then got[k] == listed[k]
      else Picks(deaths, side, p, times[k], Taken(listed, got, k), got[k])
  }

  ghost predicate Attributed(deaths: seq<Death>, side: Sides, p: nat, times: seq<real>, listed: Partners, got: Partners)
  {
    ListedFirst(deaths, side, p, times, listed) && |got| == |times| && InTurn(deaths, side, p, times, listed, got)
  }

  method Attribute(deaths: seq<Death>, side: Sides, p: nat, times: seq<real>) returns (listed: Partners, got: Partners)
    ensures Attributed(deaths, side, p, times, listed, got)
  {
    hide Near, Picks, ListedPair, ListedFirst, IsMatching, NoBlockingPair, InTurn;
    var pairs := ListedPairs(deaths, side, p, times);
    InRange(deaths, side, p, times, pairs);
    listed := TakeBestFirst(pairs, |times|, |deaths|);
    MatchedIsListed(deaths, side, p, times, pairs, listed);
    var taken := set j | 0 <= j < |listed| && listed[j].Some? :: listed[j].value;
    got := [];
    assert InTurn(deaths, side, p, times, listed, got) by { NoTurn(deaths, side, p, times, listed); }
    for k := 0 to |times|
      invariant |got| == k
      invariant taken == Taken(listed, got, k)
      invariant InTurn(deaths, side, p, times, listed, got)
    {
      var res := listed[k];
      if res == None {
        res := Tick(deaths, side, p, times[k], taken);
        if res.Some? {
          taken := taken + {res.value};
        }
      }
      OneTurn(deaths, side, p, times, listed, got, res);
      got := got + [res];
    }
  }

  lemma NoTurn(deaths: seq<Death>, side: Sides, p: nat, times: seq<real>, listed: Partners)
    requires |times| == |listed|
    ensures InTurn(deaths, side, p, times, listed, [])
  {
  }

  lemma OneTurn(deaths: seq<Death>, side: Sides, p: nat, times: seq<real>, listed: Partners, got: Partners,
                res: Option<nat>)
    requires |got| < |times| == |listed| && InTurn(deaths, side, p, times, listed, got)
    requires if listed[|got|].Some? then res == listed[|got|]
             else Picks(deaths, side, p, times[|got|], Taken(listed, got, |got|), res)
    ensures InTurn(deaths, side, p, times, listed, got + [res])
    ensures var before := Taken(listed, got, |got|);
            Taken(listed, got + [res], |got| + 1) == if listed[|got|] == None && res.Some? then before + {res.value}
                else before
  {
    hide Picks, Values;
    var after := got + [res];
    ValuesAppend(got, res);
    if listed[|got|].Some? { ListedIsTaken(listed, |got|); }
    forall k: nat | k < |after|
      ensures if listed[k].Some? then after[k] == listed[k]
              else Picks(deaths, side, p, times[k], Taken(listed, after, k), after[k])
    {
      if k < |got| { assert after[k] == got[k]; }
    }
  }

  lemma ListedIsTaken(listed: Partners, k: nat)
    requires k < |listed| && listed[k].Some?
    ensures listed[k].value in Values(listed, |listed|)
  {
  }

  lemma InRange(deaths: seq<Death>, side: Sides, p: nat, times: seq<real>, pairs: seq<Pair>)
    requires forall q :: q in pairs <==> ListedPair(deaths, side, p, times, q)
    ensures forall q | q in pairs :: q.left < |times| && q.right < |deaths|
  {
  }

  lemma MatchedIsListed(deaths: seq<Death>, side: Sides, p: nat, times: seq<real>, pairs: seq<Pair>, listed: Partners)
    requires forall q :: q in pairs <==> ListedPair(deaths, side, p, times, q)
    requires |listed| == |times| && IsMatching(pairs, listed) && NoBlockingPair(pairs, listed)
    ensures ListedFirst(deaths, side, p, times, listed)
  {
    hide Enemies, Dist, Content, NoBlockingPair, IsMatching;
    forall k: nat, d: nat | k < |listed| && listed[k] == Some(d)
      ensures Near(deaths, side, p, times[k], d) && p in deaths[d].assists
    {
      var q := PairOf(pairs, listed, k);
      assert ListedPair(deaths, side, p, times, q);
    }
    NoneTwice(pairs, listed);
    forall k: nat, d: nat | k < |times| && Near(deaths, side, p, times[k], d) && p in deaths[d].assists
      ensures Content(deaths, times, listed, k, d)
    {
      IsContent(deaths, side, p, times, pairs, listed, k, d);
    }
  }

  lemma IsContent(deaths: seq<Death>, side: Sides, p: nat, times: seq<real>, pairs: seq<Pair>, listed: Partners,
                  k: nat, d: nat)
    requires forall q :: q in pairs <==> ListedPair(deaths, side, p, times, q)
    requires |listed| == |times| && NoBlockingPair(pairs, listed)
    requires k < |times| && Near(deaths, side, p, times[k], d) && p in deaths[d].assists
    ensures Content(deaths, times, listed, k, d)
  {
    hide Dist, NoBlockingPair;
    var q := Pair(k, d, Dist(deaths[d], times[k]));
    assert ListedPair(deaths, side, p, times, q);
    var r := Better(pairs, listed, q);
    assert ListedPair(deaths, side, p, times, r);
    assert MatchedWith(listed, r.left, r.right);
  }

  /** Every rise goes to a different enemy death within half a second, or to none. */
  lemma RisesAreInjective(deaths: seq<Death>, side: Sides, p: nat, times: seq<real>, listed: Partners, got: Partners)
    requires Attributed(deaths, side, p, times, listed, got)
    ensures forall k: nat, d: nat | k < |got| && got[k] == Some(d) :: Near(deaths, side, p, times[k], d)
    ensures forall j, k | 0 <= j < k < |got| && got[j].Some? :: got[k] != got[j]
  {
    hide Near, Closest, Alone;
    forall k: nat, d: nat | k < |got| && got[k] == Some(d)
      ensures Near(deaths, side, p, times[k], d)
      ensures listed[k] == None ==> d !in Taken(listed, got, k)
    {
      if listed[k] == None {
        assert Picks(deaths, side, p, times[k], Taken(listed, got, k), got[k]);
        ClosestIsFree(deaths, side, p, times[k], Taken(listed, got, k), d);
      }
    }
    forall j, k | 0 <= j < k < |got| && got[j].Some? ensures got[k] != got[j] {
      if listed[k] == None {
        assert got[j].value in Taken(listed, got, k);
      } else if listed[j] == None {
        assert listed[k].value in Taken(listed, got, j);
      }
    }
  }

  lemma ClosestIsFree(deaths: seq<Death>, side: Sides, p: nat, t: real, taken: set<nat>, d: nat)
    requires Closest(deaths, side, p, t, taken, d)
    ensures Near(deaths, side, p, t, d) && d !in taken
  {
  }

  // ---- the events

  ghost predicate InBounds(got: Partners, n: nat) {
    forall k | 0 <= k < |got| && got[k].Some? :: got[k].value < n
  }

  /** One event per rise. */
  function EventsOf(deaths: seq<Death>, times: seq<real>, got: Partners): seq<Event>
    requires |got| <= |times| && InBounds(got, |deaths|)
  {
    if got == [] then []
    else
      var k := |got| - 1;
      EventsOf(deaths, times, got[..k])
      + [if got[k].Some? then Event(deaths[got[k].value].t, deaths[got[k].value].victim) else Event(times[k], -1)]
  }

  function TimeOf(e: Event): real {
    e.t
  }

  function TargetOf(e: Event): real {
    e.target as real
  }

  ghost predicate Chronological(evs: seq<Event>) {
    forall i, j | 0 <= i < j < |evs| :: evs[i].t < evs[j].t || (evs[i].t == evs[j].t && evs[i].target <= evs[j].target)
  }

  /** The events by time, then by target. */
  function Report(evs: seq<Event>): seq<Event> {
    StableSort(StableSort(evs, TargetOf), TimeOf)
  }

  lemma ReportSpec(evs: seq<Event>)
    ensures multiset(Report(evs)) == multiset(evs) && Chronological(Report(evs))
  {
    hide StableSort;
    var byTarget := StableSort(evs, TargetOf);
    var below := (a: Event, b: Event) => a.target <= b.target;
    StableSortSpec(evs, TargetOf, (_, _) => true);
    StableSortPermutes(evs, TargetOf);
    forall i, j | 0 <= i < j < |byTarget| ensures below(byTarget[i], byTarget[j]) {
      assert TargetOf(byTarget[i]) <= TargetOf(byTarget[j]);
    }
    StableSortSpec(byTarget, TimeOf, below);
    StableSortPermutes(byTarget, TimeOf);
    var evs' := StableSort(byTarget, TimeOf);
    forall i, j | 0 <= i < j < |evs'|
      ensures evs'[i].t < evs'[j].t || (evs'[i].t == evs'[j].t && evs'[i].target <= evs'[j].target)
    {
      assert TimeOf(evs'[i]) == evs'[i].t && TimeOf(evs'[j]) == evs'[j].t;
    }
  }

  // ---- the deaths' assist lists

  /** The players one of whose rises went to death d, in slot order. */
  ghost function Who(gots: seq<Partners>, d: nat): seq<nat> {
    if gots == [] then []
    else
      var p := |gots| - 1;
      Who(gots[..p], d) + if Some(d) in gots[p] then [p] else []
  }

  function Kept(assists: seq<nat>, who: seq<nat>): seq<nat> {
    if assists == [] then []
    else
      var n := |assists| - 1;
      Kept(assists[..n], who) + if assists[n] in who then [assists[n]] else []
  }

  function Added(list: seq<nat>, who: seq<nat>): seq<nat> {
    if who == [] then list
    else
      var n := |who| - 1;
      var before := Added(list, who[..n]);
      if who[n] in before then before else before + [who[n]]
  }

  /** The names the log lists that are credited, in its order, and then the others that are. */
  method Relist(assists: seq<nat>, who: seq<nat>) returns (list: seq<nat>)
    ensures list == Added(Kept(assists, who), who)
  {
    list := [];
    for i := 0 to |assists|
      invariant list == Kept(assists[..i], who)
    {
      assert assists[..i + 1][..i] == assists[..i];
      if assists[i] in who {
        list := list + [assists[i]];
      }
    }
    assert assists[..|assists|] == assists;
    for i := 0 to |who|
      invariant list == Added(Kept(assists, who), who[..i])
    {
      assert who[..i + 1][..i] == who[..i];
      if who[i] !in list {
        list := list + [who[i]];
      }
    }
    assert who[..|who|] == who;
  }

  lemma {:induction false} KeptMembers(assists: seq<nat>, who: seq<nat>)
    ensures forall a :: a in Kept(assists, who) <==> a in assists && a in who
  {
    if assists != [] {
      var n := |assists| - 1;
      KeptMembers(assists[..n], who);
      assert assists == assists[..n] + [assists[n]];
    }
  }

  lemma {:induction false} AddedMembers(list: seq<nat>, who: seq<nat>)
    ensures forall a :: a in Added(list, who) <==> a in list || a in who
    ensures list <= Added(list, who)
  {
    if who != [] {
      var n := |who| - 1;
      AddedMembers(list, who[..n]);
      assert who == who[..n] + [who[n]];
    }
  }

  lemma {:induction false} WhoMembers(gots: seq<Partners>, d: nat)
    ensures forall p: nat :: p in Who(gots, d) <==> p < |gots| && Some(d) in gots[p]
  {
    if gots != [] {
      var n := |gots| - 1;
      WhoMembers(gots[..n], d);
    }
  }

  /** A player is in a death's assist list exactly when one of his rises was credited to that death; the log's own
      names keep their order in front. */
  lemma ListsTheCredited(assists: seq<nat>, gots: seq<Partners>, d: nat)
    ensures forall p: nat :: p in Added(Kept(assists, Who(gots, d)), Who(gots, d)) <==> p < |gots| && Some(d) in gots[p]
    ensures Kept(assists, Who(gots, d)) <= Added(Kept(assists, Who(gots, d)), Who(gots, d))
  {
    hide Kept, Added, Who;
    KeptMembers(assists, Who(gots, d));
    AddedMembers(Kept(assists, Who(gots, d)), Who(gots, d));
    WhoMembers(gots, d);
  }

  /** Notes player p for every death one of his rises went to. */
  method Credit(credited: seq<seq<nat>>, got: Partners, p: nat) returns (credited': seq<seq<nat>>)
    requires InBounds(got, |credited|)
    requires forall j, k | 0 <= j < k < |got| && got[j].Some? :: got[k] != got[j]
    ensures |credited'| == |credited|
    ensures forall d: nat | d < |credited| :: credited'[d] == credited[d] + if Some(d) in got then [p] else []
  {
    credited' := credited;
    for k := 0 to |got|
      invariant |credited'| == |credited|
      invariant forall d: nat | d < |credited| :: credited'[d] == credited[d] + if Some(d) in got[..k] then [p] else []
    {
      assert got[..k + 1] == got[..k] + [got[k]];
      if got[k].Some? {
        var d := got[k].value;
        credited' := credited'[d := credited'[d] + [p]];
      }
    }
    assert got[..|got|] == got;
  }

  method Events(deaths: seq<Death>, times: seq<real>, got: Partners) returns (evs: seq<Event>)
    requires InBounds(got, |deaths|) && |got| == |times|
    ensures evs == Report(EventsOf(deaths, times, got))
  {
    evs := [];
    for k := 0 to |times|
      invariant evs == EventsOf(deaths, times, got[..k])
    {
      assert got[..k + 1][..k] == got[..k];
      var ev := Event(times[k], -1);
      if got[k].Some? {
        ev := Event(deaths[got[k].value].t, deaths[got[k].value].victim);
      }
      evs := evs + [ev];
    }
    assert got[..|times|] == got;
    evs := Report(evs);
  }

  // ---- the scoreboard

  /** Player p's rises and events after the rebuilding. */
  ghost predicate Rebuilt(was: seq<Death>, side: Sides, p: nat, times: seq<real>, listed: Partners, got: Partners,
                          evs: seq<Event>)
  {
    && Attributed(was, side, p, times, listed, got) && InBounds(got, |was|)
    && evs == Report(EventsOf(was, times, got))
  }

  ghost function WhoOf(n: nat, gots: seq<Partners>): seq<seq<nat>> {
    seq(n, d requires 0 <= d < n => Who(gots, d))
  }

  /** A death with its assist list rewritten. */
  ghost function Credited(was: Death, side: Sides, who: seq<nat>): Death {
    if was.victim < |side| && side[was.victim].Some? then was.(assists := Added(Kept(was.assists, who), who)) else was
  }

  lemma WhoStep(n: nat, gots: seq<Partners>, got: Partners, d: nat)
    requires d < n
    ensures WhoOf(n, gots + [got])[d] == WhoOf(n, gots)[d] + if Some(d) in got then [|gots|] else []
  {
    assert (gots + [got])[..|gots|] == gots;
  }

  /** The part of the parser's state that the rebuilding reads and updates. */
  class Scoreboard {
    const seen: bool               // the replay has the counters
    const side: Sides
    const times: seq<seq<real>>    // when each player's counter rose
    var deaths: seq<Death>
    var events: seq<seq<Event>>

    constructor (seen: bool, side: Sides, times: seq<seq<real>>, deaths: seq<Death>, events: seq<seq<Event>>)
      ensures this.seen == seen && this.side == side && this.times == times && this.deaths == deaths
              && this.events == events
    {
      this.seen, this.side, this.times, this.deaths, this.events := seen, side, times, deaths, events;
    }

    ghost predicate Valid()
      reads this
    {
      |side| == |times| == |events|
    }

    method RebuildEvents() returns (credited: seq<seq<nat>>, ghost listed: seq<Partners>, ghost gots: seq<Partners>)
      requires Valid()
      modifies this`events
      ensures Valid() && |listed| == |gots| == |side| && credited == WhoOf(|deaths|, gots)
      ensures forall p: nat | p < |side| ::
                if side[p].Some? then Rebuilt(deaths, side, p, times[p], listed[p], gots[p], events[p])
                else gots[p] == [] && events[p] == old(events)[p]
    {
      hide Rebuilt, Attributed, EventsOf, Report, Who;
      listed, gots, credited := [], [], seq(|deaths|, _ => []);
      assert credited == WhoOf(|deaths|, gots) by { NoOne(|deaths|); }
      for p := 0 to |side|
        invariant Valid() && |listed| == |gots| == p && credited == WhoOf(|deaths|, gots)
        invariant forall q: nat | q < p ::
                    if side[q].Some? then Rebuilt(deaths, side, q, times[q], listed[q], gots[q], events[q])
                    else gots[q] == [] && events[q] == old(events)[q]
        invariant forall q: nat | p <= q < |side| :: events[q] == old(events)[q]
      {
        ghost var before := gots;
        if side[p].Some? {
          var l, got := Attribute(deaths, side, p, times[p]);
          AttributedInBounds(deaths, side, p, times[p], l, got);
          RisesAreInjective(deaths, side, p, times[p], l, got);
          var evs := Events(deaths, times[p], got);
          assert Rebuilt(deaths, side, p, times[p], l, got, evs) by {
            IsRebuilt(deaths, side, p, times[p], l, got, evs);
          }
          events := events[p := evs];
          credited := Credit(credited, got, p);
          listed, gots := listed + [l], gots + [got];
        } else {
          listed, gots := listed + [[]], gots + [[]];
        }
        assert gots == before + [gots[p]];
        forall d: nat | d < |deaths| ensures credited[d] == WhoOf(|deaths|, gots)[d] {
          WhoStep(|deaths|, before, gots[p], d);
        }
        assert credited == WhoOf(|deaths|, gots);
      }
    }

    /** Without the counters the combat log's events stay; with them every death lists whom the scoreboard credited. */
    method Rebuild() returns (ghost listed: seq<Partners>, ghost gots: seq<Partners>)
      requires Valid()
      modifies this
      ensures Valid()
      ensures !seen ==> deaths == old(deaths) && events == old(events)
      ensures seen ==>
                && |listed| == |gots| == |side|
                && (forall p: nat | p < |side| ::
                      if side[p].Some? then Rebuilt(old(deaths), side, p, times[p], listed[p], gots[p], events[p])
                      else gots[p] == [] && events[p] == old(events)[p])
                && |deaths| == |old(deaths)|
                && (forall d: nat | d < |deaths| :: deaths[d] == Credited(old(deaths)[d], side, Who(gots, d)))
    {
      hide Rebuilt, Kept, Added, Who;
      listed, gots := [], [];
      if !seen {
        return;
      }
      var credited;
      credited, listed, gots := RebuildEvents();
      ghost var evs := events;
      for d := 0 to |deaths|
        invariant Valid() && |deaths| == |old(deaths)| && events == evs
        invariant forall e: nat | e < d :: deaths[e] == Credited(old(deaths)[e], side, Who(gots, e))
        invariant forall e: nat | d <= e < |deaths| :: deaths[e] == old(deaths)[e]
      {
        if deaths[d].victim < |side| && side[deaths[d].victim].Some? {
          var list := Relist(deaths[d].assists, credited[d]);
          deaths := deaths[d := deaths[d].(assists := list)];
        }
      }
    }
  }

  lemma NoOne(n: nat)
    ensures WhoOf(n, []) == seq(n, _ => [])
  {
  }

  lemma AttributedInBounds(deaths: seq<Death>, side: Sides, p: nat, times: seq<real>, listed: Partners, got: Partners)
    requires Attributed(deaths, side, p, times, listed, got)
    ensures InBounds(got, |deaths|) && |got| == |times|
  {
    hide Picks, Enemies, Dist, ListedFirst;
    RisesAreInjective(deaths, side, p, times, listed, got);
  }

  lemma IsRebuilt(deaths: seq<Death>, side: Sides, p: nat, times: seq<real>, listed: Partners, got: Partners,
                  evs: seq<Event>)
    requires Attributed(deaths, side, p, times, listed, got) && InBounds(got, |deaths|) && |got| == |times|
    requires evs == Report(EventsOf(deaths, times, got))
    ensures Rebuilt(deaths, side, p, times, listed, got, evs)
  {
  }

  lemma {:induction false} EventAt(deaths: seq<Death>, times: seq<real>, got: Partners, k: nat)
    requires InBounds(got, |deaths|) && k < |got| <= |times|
    ensures |EventsOf(deaths, times, got)| == |got|
    ensures EventsOf(deaths, times, got)[k] ==
            if got[k].Some? then Event(deaths[got[k].value].t, deaths[got[k].value].victim) else Event(times[k], -1)
  {
    var n := |got| - 1;
    if n > 0 { EventAt(deaths, times, got[..n], if k < n then k else n - 1); }
  }

  /** A player's events are his counter's rises, one each: at the death a rise was credited to, or at the rise itself
      when the victim is unknown. */
  lemma OneEventPerRise(was: seq<Death>, side: Sides, p: nat, times: seq<real>, listed: Partners, got: Partners,
                        evs: seq<Event>)
    requires Rebuilt(was, side, p, times, listed, got, evs)
    ensures |evs| == |times| && Chronological(evs)
    ensures multiset(evs) == multiset(seq(|times|, k requires 0 <= k < |times| =>
                               if got[k].Some? then Event(was[got[k].value].t, was[got[k].value].victim)
                                   else Event(times[k], -1)))
  {
    hide Report, Attributed, EventsOf;
    AttributedLength(was, side, p, times, listed, got);
    var each := EventsOf(was, times, got);
    if times == [] {
      NoRises(was, times, got);
    } else {
      EventAt(was, times, got, 0);
    }
    forall k | 0 <= k < |times| { EventAt(was, times, got, k); }
    assert each == seq(|times|, k requires 0 <= k < |times| =>
                         if got[k].Some? then Event(was[got[k].value].t, was[got[k].value].victim)
                             else Event(times[k], -1));
    ReportSpec(each);
    assert |multiset(evs)| == |multiset(each)|;
  }

  lemma AttributedLength(was: seq<Death>, side: Sides, p: nat, times: seq<real>, listed: Partners, got: Partners)
    requires Attributed(was, side, p, times, listed, got)
    ensures |got| == |times|
  {
  }

  lemma NoRises(was: seq<Death>, times: seq<real>, got: Partners)
    requires got == []
    ensures EventsOf(was, times, got) == []
  {
  }

  // ---- in plain numbers

  /** An enemy's death within half a second of the rise. */
  lemma NearMeans(deaths: seq<Death>, side: Sides, p: nat, t: real, d: nat)
    ensures Near(deaths, side, p, t, d) <==>
            && d < |deaths| && -0.5 <= deaths[d].t - t <= 0.5
            && p < |side| && deaths[d].victim < |side| && deaths[d].victim != p
            && side[p].Some? && side[deaths[d].victim].Some? && side[p].value != side[deaths[d].victim].value
  {
  }

  /** The only rise within reach of the death. */
  ghost predicate OnlyRise(deaths: seq<Death>, side: Sides, p: nat, times: seq<real>, k: nat, d: nat) {
    k < |times| && Near(deaths, side, p, times[k], d)
    && forall j: nat | j < |times| && j != k :: !Near(deaths, side, p, times[j], d)
  }

  lemma NotTakenBefore(deaths: seq<Death>, side: Sides, p: nat, times: seq<real>, listed: Partners, got: Partners,
                       k: nat, d: nat)
    requires Attributed(deaths, side, p, times, listed, got) && OnlyRise(deaths, side, p, times, k, d)
    ensures |listed| == |got| == |times| && (d in Taken(listed, got, k) ==> listed[k] == Some(d))
  {
    hide Near, Picks;
    RisesAreInjective(deaths, side, p, times, listed, got);
    if d in Taken(listed, got, k) {
      if d in Values(listed, |listed|) {
        var j :| 0 <= j < |listed| && listed[j].Some? && listed[j].value == d;
        assert Near(deaths, side, p, times[j], d);
      } else {
        var j :| 0 <= j < k && got[j].Some? && got[j].value == d;
      }
    }
  }

  /** A rise and an enemy death that have nothing else within half a second belong together, whether the log lists the
      player or not. */
  lemma LoneDeathIsCredited(deaths: seq<Death>, side: Sides, p: nat, times: seq<real>, listed: Partners, got: Partners,
                            k: nat, d: nat)
    requires Attributed(deaths, side, p, times, listed, got) && OnlyRise(deaths, side, p, times, k, d)
    requires forall e: nat | e != d :: !Near(deaths, side, p, times[k], e)
    ensures |got| == |times| && got[k] == Some(d)
  {
    NotTakenBefore(deaths, side, p, times, listed, got, k, d);
    RisesAreInjective(deaths, side, p, times, listed, got);
    hide Near;
    if listed[k] == None {
      assert Picks(deaths, side, p, times[k], Taken(listed, got, k), got[k]);
      assert Closest(deaths, side, p, times[k], Taken(listed, got, k), d);
      assert Alone(deaths, side, p, times[k], Taken(listed, got, k), d);
    }
  }

  /** Of several enemy deaths around a rise, one of them listing the player, that one is credited, when it is within
      reach of no other rise. */
  lemma ListedDeathIsCredited(deaths: seq<Death>, side: Sides, p: nat, times: seq<real>, listed: Partners,
                              got: Partners, k: nat, d: nat)
    requires Attributed(deaths, side, p, times, listed, got) && OnlyRise(deaths, side, p, times, k, d)
    requires d < |deaths| && p in deaths[d].assists
    requires forall e: nat | e != d && Near(deaths, side, p, times[k], e) :: e < |deaths| && p !in deaths[e].assists
    ensures |got| == |times| && got[k] == Some(d)
  {
    hide Near, Picks, Dist;
    assert Content(deaths, times, listed, k, d);
    var j: nat, e: nat :| MatchedWith(listed, j, e) && (j == k || e == d)
                          && e < |deaths| && Dist(deaths[e], times[j]) <= Dist(deaths[d], times[k]);
    assert Near(deaths, side, p, times[j], e) && p in deaths[e].assists;
  }

  lemma ListedIsNear(deaths: seq<Death>, side: Sides, p: nat, times: seq<real>, listed: Partners, k: nat)
    requires ListedFirst(deaths, side, p, times, listed) && k < |times|
    ensures |listed| == |times|
    ensures listed[k] == None || (listed[k].value < |deaths| && Near(deaths, side, p, times[k], listed[k].value)
                                  && p in deaths[listed[k].value].assists)
  {
  }

  /** Two enemy deaths of one tick around a rise, neither of them listing the player and no other in reach: the victim
      stays unknown. */
  lemma TwoDeathsStayUnknown(deaths: seq<Death>, side: Sides, p: nat, times: seq<real>, listed: Partners, got: Partners,
                             k: nat, d: nat, e: nat)
    requires Attributed(deaths, side, p, times, listed, got) && d != e
    requires OnlyRise(deaths, side, p, times, k, d) && OnlyRise(deaths, side, p, times, k, e)
    requires d < |deaths| && e < |deaths| && deaths[d].t == deaths[e].t
             && p !in deaths[d].assists && p !in deaths[e].assists
    requires forall f: nat | f != d && f != e :: !Near(deaths, side, p, times[k], f)
    ensures |got| == |times| && got[k] == None
  {
    NotTakenBefore(deaths, side, p, times, listed, got, k, d);
    NotTakenBefore(deaths, side, p, times, listed, got, k, e);
    RisesAreInjective(deaths, side, p, times, listed, got);
    hide Near, Closest;
    ListedIsNear(deaths, side, p, times, listed, k);
    var taken := Taken(listed, got, k);
    assert Picks(deaths, side, p, times[k], taken, got[k]);
    if got[k].Some? {
      assert Free(deaths, side, p, times[k], taken, d) && Free(deaths, side, p, times[k], taken, e);
    }
  }

  /** Nearer in time to t. */
  ghost predicate Nearer(a: Death, b: Death, t: real) {
    (if a.t <= t then t - a.t else a.t - t) < (if b.t <= t then t - b.t else b.t - t)
  }

  /** Of two enemy deaths around a rise, both or neither listing the player and no other in reach, the nearer one is
      credited. */
  lemma NearerDeathIsCredited(deaths: seq<Death>, side: Sides, p: nat, times: seq<real>, listed: Partners,
                              got: Partners, k: nat, d: nat, e: nat)
    requires Attributed(deaths, side, p, times, listed, got) && d != e
    requires OnlyRise(deaths, side, p, times, k, d) && OnlyRise(deaths, side, p, times, k, e)
    requires d < |deaths| && e < |deaths| && Nearer(deaths[d], deaths[e], times[k])
             && (p in deaths[d].assists <==> p in deaths[e].assists)
    requires forall f: nat | f != d && f != e :: !Near(deaths, side, p, times[k], f)
    ensures |got| == |times| && got[k] == Some(d)
  {
    NotTakenBefore(deaths, side, p, times, listed, got, k, d);
    NotTakenBefore(deaths, side, p, times, listed, got, k, e);
    RisesAreInjective(deaths, side, p, times, listed, got);
    ListedIsNear(deaths, side, p, times, listed, k);
    NearerDist(deaths[d], deaths[e], times[k]);
    if p in deaths[d].assists {
      NearerIsListed(deaths, side, p, times, listed, k, d, e);
    } else {
      hide Near, Dist;
      var taken := Taken(listed, got, k);
      assert Picks(deaths, side, p, times[k], taken, got[k]);
      assert Closest(deaths, side, p, times[k], taken, d);
      assert Alone(deaths, side, p, times[k], taken, d) by { SameDist(deaths[d], deaths[e], times[k]); }
    }
  }

  lemma NearerDist(a: Death, b: Death, t: real)
    ensures Nearer(a, b, t) <==> Dist(a, t) < Dist(b, t)
  {
  }

  lemma SameDist(a: Death, b: Death, t: real)
    ensures a.t == b.t ==> Dist(a, t) == Dist(b, t)
  {
  }

  lemma NearerIsListed(deaths: seq<Death>, side: Sides, p: nat, times: seq<real>, listed: Partners, k: nat, d: nat,
                       e: nat)
    requires ListedFirst(deaths, side, p, times, listed) && d < |deaths| && e < |deaths|
    requires OnlyRise(deaths, side, p, times, k, d) && OnlyRise(deaths, side, p, times, k, e)
    requires p in deaths[d].assists && Dist(deaths[d], times[k]) < Dist(deaths[e], times[k])
    requires forall f: nat | f != d && f != e :: !Near(deaths, side, p, times[k], f)
    ensures |listed| == |times| && listed[k] == Some(d)
  {
    hide Near, Dist;
    assert Content(deaths, times, listed, k, d);
    var j: nat, f: nat :| MatchedWith(listed, j, f) && (j == k || f == d)
                          && f < |deaths| && Dist(deaths[f], times[j]) <= Dist(deaths[d], times[k]);
    assert Near(deaths, side, p, times[j], f);
  }

  /** The names kept from the log, in the log's order: at says where they stood. */
  lemma {:induction false} KeptInOrder(assists: seq<nat>, who: seq<nat>) returns (at: seq<nat>)
    ensures |at| == |Kept(assists, who)|
    ensures forall m | 0 <= m < |at| :: at[m] < |assists| && Kept(assists, who)[m] == assists[at[m]]
    ensures forall m, n | 0 <= m < n < |at| :: at[m] < at[n]
    ensures forall i: nat | i < |assists| :: i in at <==> assists[i] in who
  {
    at := [];
    if assists != [] {
      var n := |assists| - 1;
      var before := KeptInOrder(assists[..n], who);
      at := before;
      if assists[n] in who { at := before + [n]; }
      forall i: nat | i < n ensures i in before <==> assists[i] in who { assert assists[..n][i] == assists[i]; }
      forall m | 0 <= m < |before| ensures before[m] < n && Kept(assists[..n], who)[m] == assists[before[m]] {
        assert assists[..n][before[m]] == assists[before[m]];
      }
    }
  }

  /** The other credited players, in slot order. */
  ghost function Others(assists: seq<nat>, who: seq<nat>): seq<nat> {
    if who == [] then []
    else
      var n := |who| - 1;
      Others(assists, who[..n]) + if who[n] !in assists then [who[n]] else []
  }

  ghost predicate NoneTwiceIn(who: seq<nat>) {
    forall i, j | 0 <= i < j < |who| :: who[i] != who[j]
  }

  lemma {:induction false} OthersAre(assists: seq<nat>, who: seq<nat>)
    ensures forall a :: a in Others(assists, who) <==> a in who && a !in assists
  {
    if who != [] {
      var n := |who| - 1;
      OthersAre(assists, who[..n]);
      assert who == who[..n] + [who[n]];
    }
  }

  lemma {:induction false} AddedAreOthers(assists: seq<nat>, all: seq<nat>, who: seq<nat>)
    requires NoneTwiceIn(who) && forall a | a in who :: a in all
    ensures Added(Kept(assists, all), who) == Kept(assists, all) + Others(assists, who)
  {
    hide Kept;
    if who == [] {
      assert Kept(assists, all) + [] == Kept(assists, all);
    } else {
      var n := |who| - 1;
      assert who == who[..n] + [who[n]];
      AddedAreOthers(assists, all, who[..n]);
      KeptMembers(assists, all);
      OthersAre(assists, who[..n]);
    }
  }

  /** A death's new list: the credited players that the log lists, in the log's order, and then the other credited
      ones, in slot order. */
  lemma ListInOrder(assists: seq<nat>, who: seq<nat>) returns (at: seq<nat>)
    requires forall i, j | 0 <= i < j < |who| :: who[i] < who[j]
    ensures var list := Added(Kept(assists, who), who);
            && |at| <= |list|
            && (forall m | 0 <= m < |at| :: at[m] < |assists| && list[m] == assists[at[m]])
            && (forall m, n | 0 <= m < n < |at| :: at[m] < at[n])
            && (forall i: nat | i < |assists| :: i in at <==> assists[i] in who)
            && (forall m | |at| <= m < |list| :: list[m] in who && list[m] !in assists)
            && (forall m, n | |at| <= m < n < |list| :: list[m] < list[n])
  {
    at := KeptInOrder(assists, who);
    AddedAreOthers(assists, who, who);
    OthersAre(assists, who);
    OthersAscend(assists, who);
  }

  lemma {:induction false} OthersAscend(assists: seq<nat>, who: seq<nat>)
    requires forall i, j | 0 <= i < j < |who| :: who[i] < who[j]
    ensures forall i, j | 0 <= i < j < |Others(assists, who)| :: Others(assists, who)[i] < Others(assists, who)[j]
  {
    if who != [] {
      var n := |who| - 1;
      OthersAscend(assists, who[..n]);
      OthersAre(assists, who[..n]);
      var before := Others(assists, who[..n]);
      forall i | 0 <= i < |before| ensures before[i] < who[n] {
        assert before[i] in who[..n];
      }
    }
  }

  lemma {:induction false} WhoAscends(gots: seq<Partners>, d: nat)
    ensures forall i, j | 0 <= i < j < |Who(gots, d)| :: Who(gots, d)[i] < Who(gots, d)[j]
  {
    if gots != [] {
      var n := |gots| - 1;
      WhoAscends(gots[..n], d);
      WhoMembers(gots[..n], d);
      forall i | 0 <= i < |Who(gots[..n], d)| ensures Who(gots[..n], d)[i] < n {
        assert Who(gots[..n], d)[i] in Who(gots[..n], d);
      }
    }
  }
}
