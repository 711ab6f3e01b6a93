/** Who cleared each stack of neutral creeps, and for how much gold (main.go, stackOutcomes). */
module StackOutcomes {
  import opened CampKills
  import opened Matching
  import opened Rounding
  import opened Sets
  import opened Sorting
  import opened Wrappers

  /** A stack in the order the events list it, with the camp nearest to it, if one is near enough. */
  datatype Stack = Stack(time: real, camp: Option<nat>)

  datatype Tally = Tally(n: nat, gold: int, first: real)

  datatype Outcome = Outcome(clearedBy: int, at: real, creeps: nat, gold: int)

  const NOT_CLEARED := Outcome(-1, 0.0, 0, 0)

  function End(l: Life): real {
    if l.killed == 0.0 then l.died else l.killed
  }

  /** The creep belongs to the stack's camp, woke at most 3 s after the stack, and was alive at its moment. */
  predicate Admits(st: Stack, l: Life) {
    && st.camp == Some(l.camp)
    && !l.summoned && l.woke != 0.0 && l.woke <= st.time + 3.0
    && (End(l) == 0.0 || End(l) > st.time)
  }

  /** The order in which the stacks of a camp take their creeps. */
  predicate Earlier(stacks: seq<Stack>, a: nat, b: nat)
    requires a < |stacks| && b < |stacks|
  {
    stacks[a].time < stacks[b].time || (stacks[a].time == stacks[b].time && a < b)
  }

  /** The stack is the earliest one that admits the creep. */
  ghost predicate Holds(stacks: seq<Stack>, l: Life, s: nat)
    requires s < |stacks|
  {
    Admits(stacks[s], l) && forall r: nat | r < |stacks| && r != s && Admits(stacks[r], l) :: Earlier(stacks, s, r)
  }

  // ---- the tally of one stack

  /** What a player killed among some creeps. */
  function TallyOf(ks: seq<Kill>, p: int): Tally {
    if ks == [] then Tally(0, 0, 0.0)
    else
      var before := TallyOf(ks[..|ks| - 1], p);
      var k := ks[|ks| - 1];
      if k.owner != p then before
      else Tally(before.n + 1, before.gold + k.gold, if before.n == 0 || k.t < before.first then k.t else before.first)
  }

  /** More creeps, then more gold, then the earlier first kill, then the lower slot. */
  predicate Beats(a: Tally, p: int, b: Tally, q: int) {
    a.n > b.n || (a.n == b.n && (a.gold > b.gold
        || (a.gold == b.gold && (a.first < b.first || (a.first == b.first && p < q)))))
  }

  /** The outcome of a stack whose creeps died as ks says: the player who beats all others and was not outdone by
      units of no player, if there is one. */
  ghost predicate Verdict(ks: seq<Kill>, o: Outcome) {
    var nobody := TallyOf(ks, -1).n;
    if o.clearedBy < 0 then
      o == NOT_CLEARED && forall p: int | p >= 0 && TallyOf(ks, p).n > 0 :: TallyOf(ks, p).n < nobody
    else
      var t := TallyOf(ks, o.clearedBy);
      && t.n > 0 && t.n >= nobody
      && o == Outcome(o.clearedBy, Tenth(t.first), t.n, t.gold)
      && forall q: int | q >= 0 && q != o.clearedBy && TallyOf(ks, q).n > 0 :: Beats(t, o.clearedBy, TallyOf(ks, q), q)
  }

  /** A stack has one outcome: it does not depend on the order in which the players' tallies are looked at. */
  lemma VerdictIsUnique(ks: seq<Kill>, a: Outcome, b: Outcome)
    requires Verdict(ks, a) && Verdict(ks, b)
    ensures a == b
  {
    hide TallyOf, Tenth;
  }

  method Best(byPlayer: map<int, Tally>) returns (best: int)
    requires forall p | p in byPlayer :: p >= 0
    ensures best < 0 ==> best == -1 && forall q :: q !in byPlayer
    ensures best >= 0 ==> best in byPlayer && forall q | q in byPlayer && q != best ::
            Beats(byPlayer[best], best, byPlayer[q], q)
  {
    best := -1;
    var todo: set<int> := byPlayer.Keys;
    while todo != {}
      invariant todo <= byPlayer.Keys
      invariant best < 0 ==> best == -1 && todo == byPlayer.Keys
      invariant best >= 0 ==> best in byPlayer && best !in todo
      invariant best >= 0 ==> forall q | q in byPlayer && q != best && q !in todo ::
                Beats(byPlayer[best], best, byPlayer[q], q)
      decreases |todo|
    {
      ghost var some := Member(todo);
      var p: int :| p in todo;
      todo := todo - {p};
      if best < 0 || Beats(byPlayer[p], p, byPlayer[best], best) {
        best := p;
      }
    }
  }

  ghost predicate Tallied(byPlayer: map<int, Tally>, nobody: nat, ks: seq<Kill>) {
    && nobody == TallyOf(ks, -1).n
    && (forall p: int :: p in byPlayer <==> p >= 0 && TallyOf(ks, p).n > 0)
    && (forall p | p in byPlayer :: byPlayer[p] == TallyOf(ks, p))
  }

  /** One more creep in the tallies. */
  method Add(byPlayer: map<int, Tally>, nobody: nat, k: Kill, ghost ks: seq<Kill>)
             returns (by': map<int, Tally>, nobody': nat)
    requires Tallied(byPlayer, nobody, ks) && k.owner >= -2
    ensures Tallied(by', nobody', ks + [k])
  {
    by', nobody' := byPlayer, nobody;
    assert (ks + [k])[..|ks|] == ks;
    if k.owner == -1 {
      nobody' := nobody + 1;
    }
    if k.owner >= 0 {
      var tl := if k.owner in byPlayer then byPlayer[k.owner] else Tally(0, 0, k.t);
      TallyIsPlain(ks, k.owner);
      by' := byPlayer[k.owner := Tally(tl.n + 1, tl.gold + k.gold, if k.t < tl.first then k.t else tl.first)];
    }
  }

  lemma {:induction false} TallyIsPlain(ks: seq<Kill>, p: int)
    ensures TallyOf(ks, p).n == 0 ==> TallyOf(ks, p).gold == 0
  {
    if ks != [] { TallyIsPlain(ks[..|ks| - 1], p); }
  }

  method Decide(byPlayer: map<int, Tally>, nobody: nat, ghost ks: seq<Kill>) returns (o: Outcome)
    requires Tallied(byPlayer, nobody, ks)
    ensures Verdict(ks, o)
  {
    hide TallyOf, Tenth;
    var best := Best(byPlayer);
    o := NOT_CLEARED;
    if best >= 0 && byPlayer[best].n >= nobody {
      o := Outcome(best, Tenth(byPlayer[best].first), byPlayer[best].n, byPlayer[best].gold);
    }
  }

  /** The creeps among the first n that the stack admits and no earlier one holds. */
  ghost function Free(st: Stack, lives: seq<Life>, held: seq<bool>, n: nat): seq<nat>
    requires n <= |lives| == |held|
  {
    if n == 0 then []
    else if !held[n - 1] && Admits(st, lives[n - 1]) then Free(st, lives, held, n - 1) + [n - 1]
    else Free(st, lives, held, n - 1)
  }

  ghost function KillsOf(kills: seq<Kill>, creeps: seq<nat>): seq<Kill>
    requires forall i | 0 <= i < |creeps| :: creeps[i] < |kills|
  {
    seq(|creeps|, i requires 0 <= i < |creeps| => kills[creeps[i]])
  }

  lemma {:induction false} FreeIsIndex(st: Stack, lives: seq<Life>, held: seq<bool>, n: nat)
    requires n <= |lives| == |held|
    ensures forall i | 0 <= i < |Free(st, lives, held, n)| :: Free(st, lives, held, n)[i] < n
  {
    if n > 0 { FreeIsIndex(st, lives, held, n - 1); }
  }

  /** One stack takes its creeps and is decided. */
  method Clear(st: Stack, lives: seq<Life>, kills: seq<Kill>, held: array<bool>) returns (o: Outcome)
    requires held.Length == |lives| == |kills|
    requires forall k | k in kills :: k.owner >= -2
    modifies held
    ensures forall l | 0 <= l < |lives| :: held[l] == (old(held[l]) || Admits(st, lives[l]))
    ensures var creeps := Free(st, lives, old(held[..]), |lives|);
            (forall i | 0 <= i < |creeps| :: creeps[i] < |kills|) && Verdict(KillsOf(kills, creeps), o)
  {
    hide Admits, TallyOf, Verdict, Tallied;
    var byPlayer: map<int, Tally> := map[];
    var nobody := 0;
    ghost var was := held[..];
    ghost var creeps: seq<nat> := [];
    assert KillsOf(kills, creeps) == [];
    NothingTallied();
    for li := 0 to |lives|
      invariant forall l | 0 <= l < li :: held[l] == (was[l] || Admits(st, lives[l]))
      invariant forall l | li <= l < |lives| :: held[l] == was[l]
      invariant creeps == Free(st, lives, was, li)
      invariant forall i | 0 <= i < |creeps| :: creeps[i] < |kills|
      invariant Tallied(byPlayer, nobody, KillsOf(kills, creeps))
    {
      if !held[li] && Admits(st, lives[li]) {
        held[li] := true;
        byPlayer, nobody := Add(byPlayer, nobody, kills[li], KillsOf(kills, creeps));
        assert KillsOf(kills, creeps + [li]) == KillsOf(kills, creeps) + [kills[li]];
        creeps := creeps + [li];
      }
    }
    o := Decide(byPlayer, nobody, KillsOf(kills, creeps));
  }

  lemma NothingTallied()
    ensures Tallied(map[], 0, [])
  {
  }

  // ---- the camps

  /** The stacks of one camp, as listed. */
  function Refs(stacks: seq<Stack>, camp: nat): seq<nat> {
    if stacks == [] then []
    else
      var n := |stacks| - 1;
      Refs(stacks[..n], camp) + if stacks[n].camp == Some(camp) then [n] else []
  }

  lemma {:induction false} RefsSpec(stacks: seq<Stack>, camp: nat)
    ensures forall i, j | 0 <= i < j < |Refs(stacks, camp)| :: Refs(stacks, camp)[i] < Refs(stacks, camp)[j]
    ensures forall s: nat :: s in Refs(stacks, camp) <==> s < |stacks| && stacks[s].camp == Some(camp)
  {
    if stacks != [] {
      var n := |stacks| - 1;
      RefsSpec(stacks[..n], camp);
      var shorter := Refs(stacks[..n], camp);
      forall i | 0 <= i < |shorter| ensures shorter[i] < n {
        assert shorter[i] in shorter;
      }
    }
  }

  lemma RefsStep(stacks: seq<Stack>, i: nat, camp: nat)
    requires i < |stacks|
    ensures Refs(stacks[..i + 1], camp) == Refs(stacks[..i], camp) + if stacks[i].camp == Some(camp) then [i] else []
  {
    assert stacks[..i + 1][..i] == stacks[..i];
  }

  /** byCamp lists the stacks of every camp that has one. */
  ghost predicate Grouped(stacks: seq<Stack>, byCamp: map<nat, seq<nat>>) {
    && (forall c | c in byCamp :: byCamp[c] == Refs(stacks, c))
    && (forall c: nat | c !in byCamp :: Refs(stacks, c) == [])
  }

  method ByCamp(stacks: seq<Stack>) returns (byCamp: map<nat, seq<nat>>)
    ensures Grouped(stacks, byCamp)
  {
    hide Refs;
    byCamp := map[];
    assert forall c: nat :: Refs([], c) == [] by { NoRefs(); }
    for i := 0 to |stacks|
      invariant Grouped(stacks[..i], byCamp)
    {
      forall c: nat { RefsStep(stacks, i, c); }
      if stacks[i].camp.Some? {
        var c := stacks[i].camp.value;
        byCamp := byCamp[c := (if c in byCamp then byCamp[c] else []) + [i]];
      }
    }
    assert stacks[..|stacks|] == stacks;
  }

  lemma NoRefs()
    ensures forall c: nat :: Refs([], c) == []
  {
  }

  /** The creeps among the first n that stack s holds. */
  ghost function Mine(stacks: seq<Stack>, lives: seq<Life>, s: nat, n: nat): seq<nat>
    requires s < |stacks| && n <= |lives|
  {
    if n == 0 then []
    else if Holds(stacks, lives[n - 1], s) then Mine(stacks, lives, s, n - 1) + [n - 1]
    else Mine(stacks, lives, s, n - 1)
  }

  ghost predicate Decided(stacks: seq<Stack>, lives: seq<Life>, kills: seq<Kill>, s: nat, o: Outcome)
    requires s < |stacks| && |kills| == |lives|
  {
    var mine := Mine(stacks, lives, s, |lives|);
    (forall i | 0 <= i < |mine| :: mine[i] < |kills|) && Verdict(KillsOf(kills, mine), o)
  }

  lemma {:induction false} FreeIsMine(stacks: seq<Stack>, lives: seq<Life>, held: seq<bool>, s: nat, n: nat)
    requires s < |stacks| && n <= |lives| == |held|
    requires forall l | 0 <= l < n :: (!held[l] && Admits(stacks[s], lives[l])) == Holds(stacks, lives[l], s)
    ensures Free(stacks[s], lives, held, n) == Mine(stacks, lives, s, n)
  {
    hide Holds, Admits;
    if n > 0 { FreeIsMine(stacks, lives, held, s, n - 1); }
  }

  /** The stacks of one camp, earliest first. */
  ghost predicate InTurn(stacks: seq<Stack>, camp: nat, refs: seq<nat>) {
    && (forall s: nat :: s in refs <==> s < |stacks| && stacks[s].camp == Some(camp))
    && (forall i, j | 0 <= i < j < |refs| ::
       refs[i] < |stacks| && refs[j] < |stacks| && Earlier(stacks, refs[i], refs[j]))
  }

  /** A creep that none of the stacks before the i-th took is the i-th stack's to hold when it admits it. */
  lemma TurnsHold(stacks: seq<Stack>, camp: nat, refs: seq<nat>, i: nat, l: Life)
    requires InTurn(stacks, camp, refs) && i < |refs|
    ensures refs[i] < |stacks|
    ensures Holds(stacks, l, refs[i]) <==>
            Admits(stacks[refs[i]], l) && forall j | 0 <= j < i :: refs[j] < |stacks| && !Admits(stacks[refs[j]], l)
  {
    var s := refs[i];
    assert s in refs;
    if Holds(stacks, l, s) {
      forall j | 0 <= j < i ensures refs[j] < |stacks| && !Admits(stacks[refs[j]], l) {
        assert Earlier(stacks, refs[j], s);
      }
    }
    if Admits(stacks[s], l) && forall j | 0 <= j < i :: refs[j] < |stacks| && !Admits(stacks[refs[j]], l) {
      forall r: nat | r < |stacks| && r != s && Admits(stacks[r], l) ensures Earlier(stacks, s, r) {
        assert r in refs;
        var k :| 0 <= k < |refs| && refs[k] == r;
      }
    }
  }

  /** When the creeps of the camp taken so far are those the earlier stacks admit, stack i gets the ones it holds. */
  lemma TurnIsMine(camp: nat, refs: seq<nat>, stacks: seq<Stack>, lives: seq<Life>, held: seq<bool>, i: nat)
    requires InTurn(stacks, camp, refs) && i < |refs| && |held| == |lives|
    requires forall l | 0 <= l < |lives| && lives[l].camp == camp ::
               held[l] <==> exists j :: 0 <= j < i && refs[j] < |stacks| && Admits(stacks[refs[j]], lives[l])
    ensures refs[i] < |stacks|
    ensures forall l | 0 <= l < |lives| ::
            (!held[l] && Admits(stacks[refs[i]], lives[l])) == Holds(stacks, lives[l], refs[i])
  {
    hide Holds, Earlier;
    var s := refs[i];
    assert s in refs;
    forall l | 0 <= l < |lives| ensures (!held[l] && Admits(stacks[s], lives[l])) == Holds(stacks, lives[l], s) {
      TurnsHold(stacks, camp, refs, i, lives[l]);
      forall j | 0 <= j < i ensures refs[j] < |stacks| {
        assert refs[j] in refs;
      }
    }
  }

  lemma DecidedIs(stacks: seq<Stack>, lives: seq<Life>, kills: seq<Kill>, held: seq<bool>, s: nat, o: Outcome)
    requires s < |stacks| && |kills| == |lives| == |held|
    requires forall l | 0 <= l < |lives| :: (!held[l] && Admits(stacks[s], lives[l])) == Holds(stacks, lives[l], s)
    requires var creeps := Free(stacks[s], lives, held, |lives|);
             (forall i | 0 <= i < |creeps| :: creeps[i] < |kills|) && Verdict(KillsOf(kills, creeps), o)
    ensures Decided(stacks, lives, kills, s, o)
  {
    FreeIsMine(stacks, lives, held, s, |lives|);
  }

  lemma EarlierPair(stacks: seq<Stack>, sorted: seq<nat>, time: nat -> real, less: (nat, nat) -> bool, i: nat, j: nat)
    requires Sorting.Ordered(sorted, time, less) && i < j < |sorted| && sorted[i] < |stacks| && sorted[j] < |stacks|
    requires time(sorted[i]) == stacks[sorted[i]].time && time(sorted[j]) == stacks[sorted[j]].time
    requires less(sorted[i], sorted[j]) ==> sorted[i] < sorted[j]
    ensures Earlier(stacks, sorted[i], sorted[j])
  {
  }

  /** A list sorted by time, its ties by number, has the stacks in turn. */
  lemma SortedIsInTurn(stacks: seq<Stack>, camp: nat, sorted: seq<nat>, time: nat -> real, less: (nat, nat) -> bool)
    requires forall s: nat :: s in sorted <==> s < |stacks| && stacks[s].camp == Some(camp)
    requires Sorting.Ordered(sorted, time, less)
    requires forall s: nat | s < |stacks| :: time(s) == stacks[s].time
    requires forall a: nat, b: nat :: less(a, b) <==> a < b
    ensures InTurn(stacks, camp, sorted)
  {
    hide Sorting.Ordered, Earlier;
    forall i: nat | i < |sorted| ensures sorted[i] < |stacks| {
      assert sorted[i] in sorted;
    }
    forall i, j | 0 <= i < j < |sorted| ensures Earlier(stacks, sorted[i], sorted[j]) {
      assert less(sorted[i], sorted[j]) <==> sorted[i] < sorted[j];
      EarlierPair(stacks, sorted, time, less, i, j);
    }
  }

  method SortByTime(stacks: seq<Stack>, camp: nat, refs: seq<nat>) returns (sorted: seq<nat>)
    requires refs == Refs(stacks, camp)
    ensures InTurn(stacks, camp, sorted)
  {
    hide StableSort, Refs, Sorting.Ordered, InTurn;
    RefsSpec(stacks, camp);
    var time := (s: nat) => if s < |stacks| then stacks[s].time else 0.0;
    var less := (a: nat, b: nat) => a < b;
    sorted := StableSort(refs, time);
    StableSortSpec(refs, time, less);
    SortedIsInTurn(stacks, camp, sorted, time, less);
  }

  /** The stacks of one camp, each in its turn. */
  method ClearCamp(camp: nat, refs: seq<nat>, stacks: seq<Stack>, lives: seq<Life>, kills: seq<Kill>,
                   held: array<bool>, outs: array<Outcome>)
    requires held.Length == |lives| == |kills| && outs.Length == |stacks|
    requires forall k | k in kills :: k.owner >= -2
    requires InTurn(stacks, camp, refs)
    requires forall l | 0 <= l < |lives| && lives[l].camp == camp :: !held[l]
    modifies held, outs
    ensures forall l | 0 <= l < |lives| && lives[l].camp != camp :: held[l] == old(held[l])
    ensures forall s | 0 <= s < |stacks| && stacks[s].camp != Some(camp) :: outs[s] == old(outs[s])
    ensures forall s | 0 <= s < |stacks| && stacks[s].camp == Some(camp) :: Decided(stacks, lives, kills, s, outs[s])
  {
    hide Verdict, Free, Mine, Holds, KillsOf, Decided;
    for i := 0 to |refs|
      invariant forall l | 0 <= l < |lives| && lives[l].camp != camp :: held[l] == old(held[l])
      invariant forall l | 0 <= l < |lives| && lives[l].camp == camp ::
                  held[l] <==> exists j :: 0 <= j < i && refs[j] < |stacks| && Admits(stacks[refs[j]], lives[l])
      invariant forall s | 0 <= s < |stacks| && s !in refs :: outs[s] == old(outs[s])
      invariant forall j | 0 <= j < i :: refs[j] < |stacks| && Decided(stacks, lives, kills, refs[j], outs[refs[j]])
    {
      var s := refs[i];
      assert s in refs;
      ghost var before := held[..];
      TurnIsMine(camp, refs, stacks, lives, before, i);
      var o := Clear(stacks[s], lives, kills, held);
      DecidedIs(stacks, lives, kills, before, s, o);
      outs[s] := o;
    }
  }

  method StackOutcomes(lives: seq<Life>, kills: seq<Kill>, stacks: seq<Stack>) returns (out: seq<Outcome>)
    requires |kills| == |lives| && forall k | k in kills :: k.owner >= -2
    ensures |out| == |stacks|
    ensures forall s | 0 <= s < |stacks| :: Decided(stacks, lives, kills, s, out[s])
  {
    hide Decided, Refs, InTurn;
    var byCamp := ByCamp(stacks);
    var outs := new Outcome[|stacks|](_ => NOT_CLEARED);
    var held := new bool[|lives|](_ => false);
    var todo: set<nat> := byCamp.Keys;
    while todo != {}
      invariant todo <= byCamp.Keys
      invariant forall l | 0 <= l < |lives| && held[l] :: lives[l].camp !in todo
      invariant forall s | 0 <= s < |stacks| && (stacks[s].camp == None || stacks[s].camp.value in todo) ::
                outs[s] == NOT_CLEARED
      invariant forall s | 0 <= s < |stacks| && stacks[s].camp.Some? && stacks[s].camp.value in byCamp
                && stacks[s].camp.value !in todo ::
                  Decided(stacks, lives, kills, s, outs[s])
      decreases |todo|
    {
      ghost var some := Member(todo);
      var c: nat :| c in todo;
      todo := todo - {c};
      var refs := SortByTime(stacks, c, byCamp[c]);
      ClearCamp(c, refs, stacks, lives, kills, held, outs);
    }
    forall s | 0 <= s < |stacks| ensures Decided(stacks, lives, kills, s, outs[s]) {
      if stacks[s].camp == None {
        NowhereHoldsNothing(stacks, lives, kills, s);
      } else {
        RefsSpec(stacks, stacks[s].camp.value);
      }
    }
    out := outs[..];
  }

  /** A stack near no camp holds nothing. */
  lemma NowhereHoldsNothing(stacks: seq<Stack>, lives: seq<Life>, kills: seq<Kill>, s: nat)
    requires s < |stacks| && stacks[s].camp == None && |kills| == |lives|
    ensures Decided(stacks, lives, kills, s, NOT_CLEARED)
  {
    NoneMine(stacks, lives, s, |lives|);
    assert KillsOf(kills, []) == [];
    assert forall p :: TallyOf([], p).n == 0;
  }

  lemma {:induction false} NoneMine(stacks: seq<Stack>, lives: seq<Life>, s: nat, n: nat)
    requires s < |stacks| && stacks[s].camp == None && n <= |lives|
    ensures Mine(stacks, lives, s, n) == []
  {
    if n > 0 { NoneMine(stacks, lives, s, n - 1); }
  }

  // ---- conservation

  /** No creep is counted for two stacks. */
  lemma {:induction false} HeldOnce(stacks: seq<Stack>, lives: seq<Life>, a: nat, b: nat, n: nat)
    requires a < |stacks| && b < |stacks| && a != b && n <= |lives|
    ensures forall l | l in Mine(stacks, lives, a, n) :: l !in Mine(stacks, lives, b, n)
    ensures forall l | l in Mine(stacks, lives, a, n) :: l < n && Holds(stacks, lives[l], a)
    ensures forall l | l in Mine(stacks, lives, b, n) :: l < n && Holds(stacks, lives[l], b)
  {
    if n > 0 {
      HeldOnce(stacks, lives, a, b, n - 1);
    }
  }

  /** One of the first m stacks holds the creep. */
  ghost predicate HeldBefore(stacks: seq<Stack>, l: Life, m: nat)
    requires m <= |stacks|
  {
    exists s: nat :: s < m && Holds(stacks, l, s)
  }

  /** The gold of player p's kills among the first n creeps that one of the first m stacks holds. */
  ghost function HeldGold(stacks: seq<Stack>, lives: seq<Life>, kills: seq<Kill>, p: int, m: nat, n: nat): int
    requires m <= |stacks| && n <= |lives| == |kills|
  {
    if n == 0 then 0
    else
      HeldGold(stacks, lives, kills, p, m, n - 1)
      + if kills[n - 1].owner == p && HeldBefore(stacks, lives[n - 1], m) then kills[n - 1].gold else 0
  }

  /** What player p is credited with over the first m stacks. */
  ghost function Cleared(out: seq<Outcome>, p: int, m: nat): int
    requires m <= |out|
  {
    if m == 0 then 0 else Cleared(out, p, m - 1) + if out[m - 1].clearedBy == p then out[m - 1].gold else 0
  }

  lemma {:induction false} MineIsIndex(stacks: seq<Stack>, lives: seq<Life>, s: nat, n: nat)
    requires s < |stacks| && n <= |lives|
    ensures forall i | 0 <= i < |Mine(stacks, lives, s, n)| :: Mine(stacks, lives, s, n)[i] < n
  {
    hide Holds;
    if n > 0 { MineIsIndex(stacks, lives, s, n - 1); }
  }

  lemma HeldStep(stacks: seq<Stack>, l: Life, m: nat)
    requires m < |stacks|
    ensures HeldBefore(stacks, l, m + 1) <==> HeldBefore(stacks, l, m) || Holds(stacks, l, m)
    ensures Holds(stacks, l, m) ==> !HeldBefore(stacks, l, m)
  {
    hide Admits;
    if HeldBefore(stacks, l, m + 1) && !Holds(stacks, l, m) {
      var s: nat :| s < m + 1 && Holds(stacks, l, s);
    }
  }

  lemma TallyAppend(kills: seq<Kill>, creeps: seq<nat>, c: nat, p: int)
    requires (forall i | 0 <= i < |creeps| :: creeps[i] < |kills|) && c < |kills|
    ensures TallyOf(KillsOf(kills, creeps + [c]), p).gold ==
            TallyOf(KillsOf(kills, creeps), p).gold + if kills[c].owner == p then kills[c].gold else 0
  {
    var after := KillsOf(kills, creeps + [c]);
    assert after == KillsOf(kills, creeps) + [kills[c]];
    assert after[..|after| - 1] == KillsOf(kills, creeps);
  }

  /** One stack more adds exactly the tally of what it holds. */
  lemma {:induction false} StackAdds(stacks: seq<Stack>, lives: seq<Life>, kills: seq<Kill>, p: int, m: nat, n: nat)
    requires m < |stacks| && n <= |lives| == |kills|
    requires forall i | 0 <= i < |Mine(stacks, lives, m, n)| :: Mine(stacks, lives, m, n)[i] < |kills|
    ensures HeldGold(stacks, lives, kills, p, m + 1, n) ==
            HeldGold(stacks, lives, kills, p, m, n) + TallyOf(KillsOf(kills, Mine(stacks, lives, m, n)), p).gold
  {
    hide Holds, HeldBefore, TallyOf, KillsOf;
    if n == 0 {
      assert TallyOf(KillsOf(kills, []), p).gold == 0 by { NoTally(kills, p); }
    } else {
      MineIsIndex(stacks, lives, m, n - 1);
      StackAdds(stacks, lives, kills, p, m, n - 1);
      HeldStep(stacks, lives[n - 1], m);
      TallyAppend(kills, Mine(stacks, lives, m, n - 1), n - 1, p);
    }
  }

  lemma NoTally(kills: seq<Kill>, p: int)
    ensures TallyOf(KillsOf(kills, []), p).gold == 0
  {
    assert KillsOf(kills, []) == [];
  }

  lemma {:induction false} TallyNotNegative(ks: seq<Kill>, p: int)
    requires forall k | k in ks :: k.gold >= 0
    ensures TallyOf(ks, p).gold >= 0
  {
    if ks != [] {
      assert forall k | k in ks[..|ks| - 1] :: k in ks;
      TallyNotNegative(ks[..|ks| - 1], p);
      assert ks[|ks| - 1] in ks;
    }
  }

  lemma {:induction false} ClearedIsHeld(stacks: seq<Stack>, lives: seq<Life>, kills: seq<Kill>, out: seq<Outcome>,
                                         p: int, m: nat)
    requires m <= |stacks| == |out| && |lives| == |kills| && p >= 0
    requires forall k | k in kills :: k.gold >= 0
    requires forall s | 0 <= s < |stacks| :: Decided(stacks, lives, kills, s, out[s])
    ensures Cleared(out, p, m) <= HeldGold(stacks, lives, kills, p, m, |lives|)
  {
    hide Mine, TallyOf, Holds;
    if m == 0 {
      NothingHeld(stacks, lives, kills, p, |lives|);
    } else {
      ClearedIsHeld(stacks, lives, kills, out, p, m - 1);
      assert Decided(stacks, lives, kills, m - 1, out[m - 1]);
      StackAdds(stacks, lives, kills, p, m - 1, |lives|);
      var ks := KillsOf(kills, Mine(stacks, lives, m - 1, |lives|));
      TallyNotNegative(ks, p);
    }
  }

  lemma {:induction false} NothingHeld(stacks: seq<Stack>, lives: seq<Life>, kills: seq<Kill>, p: int, n: nat)
    requires n <= |lives| == |kills|
    ensures HeldGold(stacks, lives, kills, p, 0, n) == 0
  {
    if n > 0 { NothingHeld(stacks, lives, kills, p, n - 1); }
  }

  lemma {:induction false} HeldIsKilled(stacks: seq<Stack>, lives: seq<Life>, kills: seq<Kill>, p: int, n: nat)
    requires n <= |lives| == |kills| && forall k | k in kills :: k.gold >= 0
    ensures HeldGold(stacks, lives, kills, p, |stacks|, n) <= KillGold(kills, p, n)
  {
    if n > 0 {
      HeldIsKilled(stacks, lives, kills, p, n - 1);
      assert kills[n - 1] in kills;
    }
  }

  /** The gold a player is credited with for clearing stacks is gold the game paid him for neutrals. */
  lemma ClearedGoldWasPaid(lives: seq<Life>, deaths: seq<Death>, golds: seq<Gold>, partner: Partners, kills: seq<Kill>,
                           stacks: seq<Stack>, out: seq<Outcome>, p: int)
    requires IsJoin(lives, deaths, partner) && KillsAre(deaths, golds, partner, kills)
    requires forall g | g in golds :: g.gold >= 0
    requires |out| == |stacks| && forall s | 0 <= s < |stacks| :: Decided(stacks, lives, kills, s, out[s])
    requires p >= 0
    ensures Cleared(out, p, |out|) <= PaidTo(golds, p)
  {
    hide Decided, HeldGold, KillOf, PaidTo, Cleared, KillGold;
    KillsNotNegative(deaths, golds, partner, kills);
    ClearedIsHeld(stacks, lives, kills, out, p, |stacks|);
    HeldIsKilled(stacks, lives, kills, p, |lives|);
    KillsWerePaid(lives, deaths, golds, partner, kills, p);
  }

  // ---- the outcome in plain numbers

  /** The stack is at the creep's camp; the creep woke up to three seconds after it, at all, and by the moment of the
      stack it had neither been killed nor, if nobody saw it killed, died otherwise. */
  lemma AdmitsMeans(st: Stack, l: Life)
    ensures Admits(st, l) <==>
            && st.camp == Some(l.camp) && !l.summoned && l.woke != 0.0 && l.woke - st.time <= 3.0
            && (l.killed != 0.0 ==> l.killed > st.time)
            && (l.killed == 0.0 && l.died != 0.0 ==> l.died > st.time)
  {
  }

  ghost function KillsBy(ks: seq<Kill>, p: int): set<nat> {
    set i | 0 <= i < |ks| && ks[i].owner == p
  }

  ghost function GoldBy(ks: seq<Kill>, p: int): int {
    if ks == [] then 0
    else
      var k := ks[|ks| - 1];
      GoldBy(ks[..|ks| - 1], p) + if k.owner == p then k.gold else 0
  }

  /** t is the stamp of his earliest kill. */
  ghost predicate FirstBy(ks: seq<Kill>, p: int, t: real) {
    (exists i :: i in KillsBy(ks, p) && ks[i].t == t) && forall i | i in KillsBy(ks, p) :: ks[i].t >= t
  }

  lemma KillsByStep(ks: seq<Kill>, p: int)
    requires ks != []
    ensures var n := |ks| - 1;
            KillsBy(ks, p) == KillsBy(ks[..n], p) + if ks[n].owner == p then {n} else {}
    ensures var n := |ks| - 1; n !in KillsBy(ks[..n], p)
  {
    var n := |ks| - 1;
    forall i: nat ensures i in KillsBy(ks, p) <==> i in KillsBy(ks[..n], p) || (i == n && ks[n].owner == p) {
      if i < n { assert ks[..n][i] == ks[i]; }
    }
  }

  lemma {:induction false} TallyMeans(ks: seq<Kill>, p: int)
    ensures var t := TallyOf(ks, p);
            && t.n == |KillsBy(ks, p)| && t.gold == GoldBy(ks, p) && (t.n > 0 ==> FirstBy(ks, p, t.first))
  {
    if ks != [] {
      var n := |ks| - 1;
      TallyMeans(ks[..n], p);
      KillsByStep(ks, p);
      FirstStep(ks, p);
    }
  }

  lemma FirstStep(ks: seq<Kill>, p: int)
    requires ks != [] && (var before := TallyOf(ks[..|ks| - 1], p);
             && before.n == |KillsBy(ks[..|ks| - 1], p)|
             && (before.n > 0 ==> FirstBy(ks[..|ks| - 1], p, before.first)))
    ensures TallyOf(ks, p).n > 0 ==> FirstBy(ks, p, TallyOf(ks, p).first)
  {
    var n := |ks| - 1;
    KillsByStep(ks, p);
    assert forall i | i in KillsBy(ks[..n], p) :: ks[..n][i] == ks[i];
    if TallyOf(ks[..n], p).n > 0 {
      var i :| i in KillsBy(ks[..n], p) && ks[..n][i].t == TallyOf(ks[..n], p).first;
      assert ks[i].t == TallyOf(ks[..n], p).first && i in KillsBy(ks, p);
    }
    if ks[n].owner == p { assert n in KillsBy(ks, p); }
  }

  /** Player p killed more of the creeps than q, or as many for more gold, or these too the same and his first kill
      was earlier, or in a lower slot. */
  ghost predicate Outdoes(ks: seq<Kill>, p: int, q: int) {
    var a, b := |KillsBy(ks, p)|, |KillsBy(ks, q)|;
    && a >= b
    && (a == b ==> GoldBy(ks, p) >= GoldBy(ks, q))
    && (a == b && GoldBy(ks, p) == GoldBy(ks, q) ==>
          forall t, u | FirstBy(ks, p, t) && FirstBy(ks, q, u) :: t < u || (t == u && p < q))
  }

  /** The clearer of a stack killed some of its creeps, no fewer than units of no player did, and outdoes every other
      player; the outcome has his first kill, his creeps and their gold. There is none only if every player that killed
      any killed fewer than units of no player. */
  lemma OutcomeMeans(ks: seq<Kill>, o: Outcome)
    requires Verdict(ks, o)
    ensures o.clearedBy >= 0 ==>
              && |KillsBy(ks, o.clearedBy)| >= 1 && |KillsBy(ks, o.clearedBy)| >= |KillsBy(ks, -1)|
              && o.creeps == |KillsBy(ks, o.clearedBy)| && o.gold == GoldBy(ks, o.clearedBy)
              && (exists t :: FirstBy(ks, o.clearedBy, t) && -0.05 <= o.at - t <= 0.05)
              && (forall q: int | q >= 0 && q != o.clearedBy && KillsBy(ks, q) != {} :: Outdoes(ks, o.clearedBy, q))
    ensures o.clearedBy < 0 ==>
              && o == Outcome(-1, 0.0, 0, 0)
              && forall q: int | q >= 0 && KillsBy(ks, q) != {} :: |KillsBy(ks, q)| < |KillsBy(ks, -1)|
  {
    hide TallyOf, Tenth, FirstBy;
    TallyMeans(ks, -1);
    TallyMeans(ks, o.clearedBy);
    if o.clearedBy >= 0 { TenthIsNear(TallyOf(ks, o.clearedBy).first); }
    forall q: int | q >= 0 && q != o.clearedBy && KillsBy(ks, q) != {}
      ensures if o.clearedBy >= 0 then Outdoes(ks, o.clearedBy, q) else |KillsBy(ks, q)| < |KillsBy(ks, -1)|
    {
      TallyMeans(ks, q);
      if o.clearedBy >= 0 { FirstIsOne(ks, o.clearedBy); FirstIsOne(ks, q); }
    }
  }

  lemma FirstIsOne(ks: seq<Kill>, p: int)
    ensures forall t, u | FirstBy(ks, p, t) && FirstBy(ks, p, u) :: t == u
  {
    forall t, u | FirstBy(ks, p, t) && FirstBy(ks, p, u) ensures t == u {
      var i :| i in KillsBy(ks, p) && ks[i].t == t;
      var j :| j in KillsBy(ks, p) && ks[j].t == u;
    }
  }
}
