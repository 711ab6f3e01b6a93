/** Events grouped by gaps in time: teamfights (main.go, detectTeamfights) and smokes of two sides in one pass (main.go,
    detectSmokeEvents). */
module Clusters {
  // ---- the grouping

  ghost predicate Tight<T>(c: seq<T>, time: T -> real, gap: real) {
    c != [] && forall i | 0 < i < |c| :: time(c[i]) - time(c[i - 1]) <= gap
  }

  ghost function Flat<T>(clusters: seq<seq<T>>): seq<T> {
    if clusters == [] then [] else Flat(clusters[..|clusters| - 1]) + clusters[|clusters| - 1]
  }

  ghost predicate Apart<T>(a: seq<T>, b: seq<T>, time: T -> real, gap: real) {
    a != [] && b != [] && time(b[0]) - time(a[|a| - 1]) > gap
  }

  /** The list cut wherever the gap is exceeded, and nowhere else. */
  ghost predicate Cut<T>(list: seq<T>, time: T -> real, gap: real, clusters: seq<seq<T>>) {
    && Flat(clusters) == list
    && (forall i | 0 <= i < |clusters| :: Tight(clusters[i], time, gap))
    && (forall i | 0 < i < |clusters| :: Apart(clusters[i - 1], clusters[i], time, gap))
  }

  lemma FlatStep<T>(clusters: seq<seq<T>>, c: seq<T>)
    ensures Flat(clusters + [c]) == Flat(clusters) + c
  {
    assert (clusters + [c])[..|clusters|] == clusters;
  }

  lemma CutShorter<T>(list: seq<T>, time: T -> real, gap: real, clusters: seq<seq<T>>)
    requires Cut(list, time, gap, clusters) && clusters != []
    ensures var n := |clusters| - 1;
            && Cut(Flat(clusters[..n]), time, gap, clusters[..n])
            && list == Flat(clusters[..n]) + clusters[n] && Tight(clusters[n], time, gap)
            && (n > 0 ==> Flat(clusters[..n]) != []
                          && time(clusters[n][0]) - time(Flat(clusters[..n])[|Flat(clusters[..n])| - 1]) > gap)
            && (n == 0 ==> Flat(clusters[..n]) == [])
  {
    var n := |clusters| - 1;
    if n > 0 {
      assert clusters[..n][..n - 1] == clusters[..n - 1];
      assert Flat(clusters[..n]) == Flat(clusters[..n - 1]) + clusters[n - 1];
      assert Apart(clusters[n - 1], clusters[n], time, gap);
    }
  }

  /** There is only one way to cut. */
  lemma {:induction false} CutIsUnique<T>(list: seq<T>, time: T -> real, gap: real, a: seq<seq<T>>, b: seq<seq<T>>)
    requires Cut(list, time, gap, a) && Cut(list, time, gap, b)
    ensures a == b
    decreases |a|
  {
    hide Cut, Flat;
    if a == [] || b == [] {
      NothingCut(list, time, gap, a);
      NothingCut(list, time, gap, b);
    } else {
      CutShorter(list, time, gap, a);
      CutShorter(list, time, gap, b);
      SameLast(list, time, gap, a, b);
      SameLast(list, time, gap, b, a);
      var n, m := |a| - 1, |b| - 1;
      assert Flat(a[..n]) == list[..|list| - |a[n]|] && Flat(b[..m]) == list[..|list| - |b[m]|];
      CutIsUnique(Flat(a[..n]), time, gap, a[..n], b[..m]);
      assert a == a[..n] + [a[n]] && b == b[..m] + [b[m]];
    }
  }

  lemma NothingCut<T>(list: seq<T>, time: T -> real, gap: real, a: seq<seq<T>>)
    requires Cut(list, time, gap, a)
    ensures a == [] <==> list == []
  {
    if a != [] {
      CutShorter(list, time, gap, a);
    }
  }

  /** The last cluster of one cut is no longer than that of another. */
  lemma SameLast<T>(list: seq<T>, time: T -> real, gap: real, a: seq<seq<T>>, b: seq<seq<T>>)
    requires Cut(list, time, gap, a) && Cut(list, time, gap, b) && a != [] && b != []
    ensures |a[|a| - 1]| <= |b[|b| - 1]|
  {
    hide Cut, Flat;
    LastInRange(list, time, gap, a);
    LastInRange(list, time, gap, b);
    var x, y := a[|a| - 1], b[|b| - 1];
    if |x| > |y| {
      WithinLast(list, time, gap, a, |list| - |y|);
      BeforeLast(list, time, gap, b);
    }
  }

  lemma LastInRange<T>(list: seq<T>, time: T -> real, gap: real, a: seq<seq<T>>)
    requires Cut(list, time, gap, a) && a != []
    ensures 0 < |a[|a| - 1]| <= |list|
  {
    CutShorter(list, time, gap, a);
  }

  lemma WithinLast<T>(list: seq<T>, time: T -> real, gap: real, a: seq<seq<T>>, k: nat)
    requires Cut(list, time, gap, a) && a != [] && |list| - |a[|a| - 1]| < k < |list|
    ensures k > 0 && time(list[k]) - time(list[k - 1]) <= gap
  {
    CutShorter(list, time, gap, a);
    var x := a[|a| - 1];
    var i := k - (|list| - |x|);
    assert list[k] == x[i] && list[k - 1] == x[i - 1];
  }

  lemma BeforeLast<T>(list: seq<T>, time: T -> real, gap: real, b: seq<seq<T>>)
    requires Cut(list, time, gap, b) && b != [] && |b[|b| - 1]| < |list|
    ensures var k := |list| - |b[|b| - 1]|; 0 < k < |list| && time(list[k]) - time(list[k - 1]) > gap
  {
    CutShorter(list, time, gap, b);
    var before, y := Flat(b[..|b| - 1]), b[|b| - 1];
    var k := |list| - |y|;
    assert list[k] == y[0] && list[k - 1] == before[|before| - 1];
  }

  lemma CutStep<T>(list: seq<T>, time: T -> real, gap: real, clusters: seq<seq<T>>, c: seq<T>)
    requires Cut(list, time, gap, clusters) && Tight(c, time, gap)
    requires clusters != [] ==> Apart(clusters[|clusters| - 1], c, time, gap)
    ensures Cut(list + c, time, gap, clusters + [c])
  {
    hide Flat, Tight, Apart;
    FlatStep(clusters, c);
    var more := clusters + [c];
    forall i | 0 < i < |more| ensures Apart(more[i - 1], more[i], time, gap) {
      if i < |clusters| { assert Apart(clusters[i - 1], clusters[i], time, gap); }
    }
  }

  // ---- teamfights

  datatype Death = Death(t: real, player: nat, radiant: bool, killer: int)

  datatype Winner = Even | Radiant | Dire

  datatype Fight = Fight(start: real, end: real, radiantDeaths: nat, direDeaths: nat, winner: Winner,
      deaths: seq<Death>)

  const WINDOW := 20.0
  const MIN_DEATHS := 3

  function TimeOf(d: Death): real {
    d.t
  }

  function Losses(c: seq<Death>, radiant: bool): nat {
    if c == [] then 0 else Losses(c[..|c| - 1], radiant) + if c[|c| - 1].radiant == radiant then 1 else 0
  }

  /** The fight a cluster is: the side that lost fewer wins. */
  ghost predicate IsFight(c: seq<Death>, f: Fight) {
    && c != [] && f.deaths == c && f.start == c[0].t && f.end == c[|c| - 1].t
    && f.radiantDeaths == Losses(c, true) && f.direDeaths == Losses(c, false)
    && f.winner == if Losses(c, true) < Losses(c, false) then Radiant
       else if Losses(c, false) < Losses(c, true) then Dire else Even
  }

  ghost function Big(clusters: seq<seq<Death>>): seq<seq<Death>> {
    if clusters == [] then []
    else
      var c := clusters[|clusters| - 1];
      if |c| >= MIN_DEATHS then Big(clusters[..|clusters| - 1]) + [c] else Big(clusters[..|clusters| - 1])
  }

  ghost predicate Fights(big: seq<seq<Death>>, fights: seq<Fight>) {
    |fights| == |big| && forall i | 0 <= i < |big| :: IsFight(big[i], fights[i])
  }

  method CountSides(c: seq<Death>) returns (radiant: nat, dire: nat)
    ensures radiant == Losses(c, true) && dire == Losses(c, false)
  {
    radiant, dire := 0, 0;
    for k := 0 to |c|
      invariant radiant == Losses(c[..k], true) && dire == Losses(c[..k], false)
    {
      assert c[..k + 1][..k] == c[..k];
      if c[k].radiant {
        radiant := radiant + 1;
      } else {
        dire := dire + 1;
      }
    }
    assert c[..|c|] == c;
  }

  /** The deaths from place i on that follow one another within the window. */
  method Grow(deaths: seq<Death>, i: nat) returns (cluster: seq<Death>, j: nat)
    requires i < |deaths|
    ensures i < j <= |deaths| && cluster == deaths[i..j] && Tight(cluster, TimeOf, WINDOW)
    ensures j < |deaths| ==> deaths[j].t - deaths[j - 1].t > WINDOW
  {
    cluster := [deaths[i]];
    j := i + 1;
    while j < |deaths| && deaths[j].t - cluster[|cluster| - 1].t <= WINDOW
      invariant i < j <= |deaths| && cluster == deaths[i..j] && Tight(cluster, TimeOf, WINDOW)
    {
      cluster := cluster + [deaths[j]];
      j := j + 1;
    }
  }

  method Describe(cluster: seq<Death>) returns (f: Fight)
    requires cluster != []
    ensures IsFight(cluster, f)
  {
    hide Losses;
    var radiantDeaths, direDeaths := CountSides(cluster);
    var winner := Even;
    if radiantDeaths < direDeaths {
      winner := Radiant;
    } else if direDeaths < radiantDeaths {
      winner := Dire;
    }
    f := Fight(cluster[0].t, cluster[|cluster| - 1].t, radiantDeaths, direDeaths, winner, cluster);
  }

  /** The fights are the clusters of three deaths or more. */
  ghost predicate AreTeamfights(deaths: seq<Death>, fights: seq<Fight>) {
    exists clusters :: Cut(deaths, TimeOf, WINDOW, clusters) && Fights(Big(clusters), fights)
  }

  /** The first i deaths are cut into clusters, and a gap follows. */
  ghost predicate CutSoFar(deaths: seq<Death>, i: nat, clusters: seq<seq<Death>>) {
    && i <= |deaths| && Cut(deaths[..i], TimeOf, WINDOW, clusters)
    && (clusters != [] ==> i > 0 && EndsWith(clusters[|clusters| - 1], deaths[i - 1]))
    && (clusters != [] && i < |deaths| ==> deaths[i].t - deaths[i - 1].t > WINDOW)
  }

  ghost predicate EndsWith(cluster: seq<Death>, d: Death) {
    cluster != [] && cluster[|cluster| - 1] == d
  }

  lemma OneMoreCluster(deaths: seq<Death>, i: nat, j: nat, clusters: seq<seq<Death>>, cluster: seq<Death>)
    requires CutSoFar(deaths, i, clusters) && i < j <= |deaths| && cluster == deaths[i..j]
             && Tight(cluster, TimeOf, WINDOW)
    requires j < |deaths| ==> deaths[j].t - deaths[j - 1].t > WINDOW
    ensures CutSoFar(deaths, j, clusters + [cluster])
  {
    hide Cut, Tight;
    assert cluster[0] == deaths[i] && cluster[|cluster| - 1] == deaths[j - 1];
    CutStep(deaths[..i], TimeOf, WINDOW, clusters, cluster);
    assert deaths[..j] == deaths[..i] + cluster;
  }

  lemma OneMoreFight(clusters: seq<seq<Death>>, cluster: seq<Death>, fights: seq<Fight>, f: Fight)
    requires Fights(Big(clusters), fights) && |cluster| >= MIN_DEATHS && IsFight(cluster, f)
    ensures Fights(Big(clusters + [cluster]), fights + [f])
  {
    hide IsFight, Big;
    BigStep(clusters, cluster);
  }

  method Teamfights(deaths: seq<Death>) returns (fights: seq<Fight>)
    ensures AreTeamfights(deaths, fights)
  {
    hide Cut, Tight, Big, IsFight, Fights, CutSoFar;
    fights := [];
    ghost var clusters: seq<seq<Death>> := [];
    var i := 0;
    NoDeaths(deaths);
    while i < |deaths|
      invariant i <= |deaths| && CutSoFar(deaths, i, clusters) && Fights(Big(clusters), fights)
    {
      var cluster, j := Grow(deaths, i);
      OneMoreCluster(deaths, i, j, clusters, cluster);
      if |cluster| >= MIN_DEATHS {
        var f := Describe(cluster);
        OneMoreFight(clusters, cluster, fights, f);
        fights := fights + [f];
      } else {
        BigStep(clusters, cluster);
      }
      clusters := clusters + [cluster];
      i := j;
    }
    AllCut(deaths, clusters);
  }

  lemma NoDeaths(deaths: seq<Death>)
    ensures CutSoFar(deaths, 0, []) && Fights(Big([]), [])
  {
    NoClusters(deaths);
  }

  lemma AllCut(deaths: seq<Death>, clusters: seq<seq<Death>>)
    requires CutSoFar(deaths, |deaths|, clusters)
    ensures Cut(deaths, TimeOf, WINDOW, clusters)
  {
    assert deaths[..|deaths|] == deaths;
  }

  lemma NoClusters(deaths: seq<Death>)
    ensures Cut(deaths[..0], TimeOf, WINDOW, []) && Big([]) == []
  {
  }

  lemma BigStep(clusters: seq<seq<Death>>, c: seq<Death>)
    ensures Big(clusters + [c]) == if |c| >= MIN_DEATHS then Big(clusters) + [c] else Big(clusters)
  {
    assert (clusters + [c])[..|clusters|] == clusters;
  }

  lemma {:induction false} SidesAddUp(c: seq<Death>)
    ensures Losses(c, true) + Losses(c, false) == |c|
  {
    if c != [] { SidesAddUp(c[..|c| - 1]); }
  }

  ghost predicate Sorted(deaths: seq<Death>) {
    forall i, j | 0 <= i < j < |deaths| :: deaths[i].t <= deaths[j].t
  }

  /** The last cluster starts more than the window after the end of every other one. */
  lemma {:induction false} LastIsApart(deaths: seq<Death>, clusters: seq<seq<Death>>)
    requires Sorted(deaths) && Cut(deaths, TimeOf, WINDOW, clusters) && clusters != []
    ensures clusters[|clusters| - 1] != []
            && clusters[|clusters| - 1][0].t <= clusters[|clusters| - 1][|clusters[|clusters| - 1]| - 1].t
    ensures forall i | 0 <= i < |clusters| - 1 ::
              clusters[i] != [] && clusters[|clusters| - 1][0].t - clusters[i][|clusters[i]| - 1].t > WINDOW
    decreases |clusters|
  {
    hide Flat;
    var n := |clusters| - 1;
    CutShorter(deaths, TimeOf, WINDOW, clusters);
    var before := Flat(clusters[..n]);
    assert deaths[|before|] == clusters[n][0] && deaths[|deaths| - 1] == clusters[n][|clusters[n]| - 1];
    if n > 0 {
      assert forall i | 0 <= i < |before| :: before[i] == deaths[i];
      LastIsApart(before, clusters[..n]);
      assert Apart(clusters[n - 1], clusters[n], TimeOf, WINDOW);
    }
  }

  ghost predicate FightsApart(big: seq<seq<Death>>) {
    forall i, j | 0 <= i < j < |big| :: big[i] != [] && big[j] != [] && big[j][0].t - big[i][|big[i]| - 1].t > WINDOW
  }

  lemma {:induction false} BigMembers(clusters: seq<seq<Death>>)
    ensures forall c :: c in Big(clusters) <==> c in clusters && |c| >= MIN_DEATHS
  {
    if clusters != [] { BigMembers(clusters[..|clusters| - 1]); }
  }

  lemma Prefix(deaths: seq<Death>, clusters: seq<seq<Death>>)
    requires Sorted(deaths) && Cut(deaths, TimeOf, WINDOW, clusters) && clusters != []
    ensures var before := Flat(clusters[..|clusters| - 1]);
            Sorted(before) && Cut(before, TimeOf, WINDOW, clusters[..|clusters| - 1])
  {
    hide Flat, Tight, Apart;
    CutShorter(deaths, TimeOf, WINDOW, clusters);
    var before := Flat(clusters[..|clusters| - 1]);
    assert forall i | 0 <= i < |before| :: before[i] == deaths[i];
  }

  lemma AllBefore(big: seq<seq<Death>>, clusters: seq<seq<Death>>, c: seq<Death>)
    requires forall b | b in big :: b in clusters
    requires c != [] && forall i | 0 <= i < |clusters| ::
             clusters[i] != [] && c[0].t - clusters[i][|clusters[i]| - 1].t > WINDOW
    requires FightsApart(big)
    ensures FightsApart(big + [c])
  {
    forall i | 0 <= i < |big| ensures big[i] != [] && c[0].t - big[i][|big[i]| - 1].t > WINDOW {
      assert big[i] in big;
      var k :| 0 <= k < |clusters| && clusters[k] == big[i];
    }
  }

  /** Teamfights are pairwise more than the window apart. */
  lemma {:induction false} BigApart(deaths: seq<Death>, clusters: seq<seq<Death>>)
    requires Sorted(deaths) && Cut(deaths, TimeOf, WINDOW, clusters)
    ensures FightsApart(Big(clusters))
    decreases |clusters|
  {
    hide Flat, Cut, Sorted, FightsApart;
    if clusters == [] {
      assert FightsApart([]) by { NoFights(); }
    } else {
      var n := |clusters| - 1;
      Prefix(deaths, clusters);
      BigApart(Flat(clusters[..n]), clusters[..n]);
      BigMembers(clusters[..n]);
      LastIsApart(deaths, clusters);
      AllBefore(Big(clusters[..n]), clusters[..n], clusters[n]);
    }
  }

  lemma NoFights()
    ensures FightsApart([])
  {
  }

  ghost predicate Balanced(f: Fight) {
    f.radiantDeaths + f.direDeaths == |f.deaths| >= MIN_DEATHS
  }

  lemma FightsAreBalanced(big: seq<seq<Death>>, fights: seq<Fight>)
    requires Fights(big, fights) && forall c | c in big :: |c| >= MIN_DEATHS
    ensures forall i | 0 <= i < |fights| :: Balanced(fights[i])
  {
    hide Losses;
    forall i | 0 <= i < |fights| ensures Balanced(fights[i]) {
      assert big[i] in big && IsFight(big[i], fights[i]);
      SidesAddUp(big[i]);
    }
  }

  lemma FightsAreApart(big: seq<seq<Death>>, fights: seq<Fight>)
    requires Fights(big, fights) && FightsApart(big)
    ensures forall i, j | 0 <= i < j < |fights| :: fights[j].start - fights[i].end > WINDOW
  {
    hide Losses;
    forall i, j | 0 <= i < j < |fights| ensures fights[j].start - fights[i].end > WINDOW {
      assert IsFight(big[i], fights[i]) && IsFight(big[j], fights[j]);
    }
  }

  /** Every teamfight has three deaths or more, the deaths of the two sides add up to them, and two fights are more than
      the window apart. */
  lemma TeamfightsAreApart(deaths: seq<Death>, fights: seq<Fight>)
    requires Sorted(deaths) && AreTeamfights(deaths, fights)
    ensures forall i | 0 <= i < |fights| :: Balanced(fights[i])
    ensures forall i, j | 0 <= i < j < |fights| :: fights[j].start - fights[i].end > WINDOW
  {
    hide Cut, Big, Fights, Sorted, FightsApart, Balanced;
    var clusters :| Cut(deaths, TimeOf, WINDOW, clusters) && Fights(Big(clusters), fights);
    BigApart(deaths, clusters);
    BigMembers(clusters);
    FightsAreBalanced(Big(clusters), fights);
    FightsAreApart(Big(clusters), fights);
  }

  // ---- smokes

  /** A smoke taking hold of a player. */
  datatype Smoke = Smoke(t: real, player: int)

  datatype Group = Group(start: real, radiant: bool, participants: set<int>)

  const SMOKE_GAP := 4.0

  function SmokeTime(s: Smoke): real {
    s.t
  }

  /** One side's smokes. */
  ghost function Of(raw: seq<Smoke>, side: int -> bool, radiant: bool): seq<Smoke> {
    if raw == [] then []
    else
      var s := raw[|raw| - 1];
      if side(s.player) == radiant then Of(raw[..|raw| - 1], side, radiant) + [s]
          else Of(raw[..|raw| - 1], side, radiant)
  }

  /** One side's groups. */
  ghost function Groups(groups: seq<Group>, radiant: bool): seq<Group> {
    if groups == [] then []
    else
      var g := groups[|groups| - 1];
      if g.radiant == radiant then Groups(groups[..|groups| - 1], radiant) + [g]
          else Groups(groups[..|groups| - 1], radiant)
  }

  ghost function Summary(c: seq<Smoke>, radiant: bool): Group
    requires c != []
  {
    Group(c[0].t, radiant, set s | s in c :: s.player)
  }

  ghost predicate Summarised(clusters: seq<seq<Smoke>>, radiant: bool, groups: seq<Group>) {
    |groups| == |clusters| && forall i | 0 <= i < |clusters| ::
        clusters[i] != [] && groups[i] == Summary(clusters[i], radiant)
  }

  /** One side's place in the pass: its clusters so far, its open group, the time of its last smoke. */
  ghost predicate Open(raw: seq<Smoke>, side: int -> bool, radiant: bool, clusters: seq<seq<Smoke>>, groups: seq<Group>,
                       open: int, last: real)
  {
    && Cut(Of(raw, side, radiant), SmokeTime, SMOKE_GAP, clusters)
    && Summarised(clusters, radiant, Groups(groups, radiant))
    && (open < 0 <==> clusters == [])
    && (open >= 0 ==> open < |groups| && groups[open].radiant == radiant
                      && (forall k | open < k < |groups| :: groups[k].radiant != radiant)
                      && clusters[|clusters| - 1] != []
                      && last == clusters[|clusters| - 1][|clusters[|clusters| - 1]| - 1].t)
  }

  lemma GroupsStep(groups: seq<Group>, g: Group, radiant: bool)
    ensures Groups(groups + [g], radiant) == if g.radiant == radiant then Groups(groups, radiant) + [g]
            else Groups(groups, radiant)
  {
    assert (groups + [g])[..|groups|] == groups;
  }

  lemma OfStep(raw: seq<Smoke>, s: Smoke, side: int -> bool, radiant: bool)
    ensures Of(raw + [s], side, radiant) == if side(s.player) == radiant then Of(raw, side, radiant) + [s]
            else Of(raw, side, radiant)
  {
    assert (raw + [s])[..|raw|] == raw;
  }

  /** Rewriting a side's last group rewrites the last one of that side's list and leaves the other side alone. */
  lemma {:induction false} GroupsUpdate(groups: seq<Group>, k: nat, g: Group)
    requires k < |groups| && groups[k].radiant == g.radiant
    requires forall j | k < j < |groups| :: groups[j].radiant != g.radiant
    ensures Groups(groups[k := g], !g.radiant) == Groups(groups, !g.radiant)
    ensures var mine := Groups(groups, g.radiant);
            mine != [] && mine[|mine| - 1] == groups[k] && Groups(groups[k := g], g.radiant) == mine[..|mine| - 1] + [g]
  {
    var n := |groups| - 1;
    if k == n {
      assert groups[k := g][..n] == groups[..n];
    } else {
      GroupsUpdate(groups[..n], k, g);
      assert groups[k := g][..n] == groups[..n][k := g];
    }
  }

  /** The other side's place is not touched. */
  lemma OtherSide(raw: seq<Smoke>, s: Smoke, side: int -> bool, clusters: seq<seq<Smoke>>, groups: seq<Group>,
                  groups': seq<Group>, open: int, last: real)
    requires var other := !side(s.player);
             && Open(raw, side, other, clusters, groups, open, last)
             && Groups(groups', other) == Groups(groups, other) && |groups'| >= |groups|
             && (forall k | 0 <= k < |groups'| ::
                groups'[k].radiant == if k < |groups| then groups[k].radiant else !other)
    ensures Open(raw + [s], side, !side(s.player), clusters, groups', open, last)
  {
    hide Cut, Summarised, Groups;
    OfStep(raw, s, side, !side(s.player));
  }

  lemma SummarisedStep(clusters: seq<seq<Smoke>>, radiant: bool, groups: seq<Group>, c: seq<Smoke>)
    requires Summarised(clusters, radiant, groups) && c != []
    ensures Summarised(clusters + [c], radiant, groups + [Summary(c, radiant)])
  {
    hide Summary;
  }

  /** A smoke too late for the open group starts one. */
  lemma Starts(raw: seq<Smoke>, s: Smoke, side: int -> bool, clusters: seq<seq<Smoke>>, groups: seq<Group>, open: int,
               last: real)
    requires Open(raw, side, side(s.player), clusters, groups, open, last)
    requires open < 0 || s.t - last > SMOKE_GAP
    ensures Open(raw + [s], side, side(s.player), clusters + [[s]], groups + [Group(s.t, side(s.player), {s.player})],
            |groups|, s.t)
  {
    hide Cut, Groups, Summarised, Of;
    var radiant := side(s.player);
    var g := Group(s.t, radiant, {s.player});
    OfStep(raw, s, side, radiant);
    GroupsStep(groups, g, radiant);
    CutStep(Of(raw, side, radiant), SmokeTime, SMOKE_GAP, clusters, [s]);
    assert (set x | x in [s] :: x.player) == {s.player};
    assert g == Summary([s], radiant);
    SummarisedStep(clusters, radiant, Groups(groups, radiant), [s]);
    assert (clusters + [[s]])[|clusters|] == [s];
  }

  lemma CutGrows(list: seq<Smoke>, clusters: seq<seq<Smoke>>, s: Smoke)
    requires Cut(list, SmokeTime, SMOKE_GAP, clusters) && clusters != []
    requires var c := clusters[|clusters| - 1]; c != [] && s.t - c[|c| - 1].t <= SMOKE_GAP
    ensures var n := |clusters| - 1; Cut(list + [s], SmokeTime, SMOKE_GAP, clusters[..n] + [clusters[n] + [s]])
  {
    hide Flat;
    var n := |clusters| - 1;
    CutShorter(list, SmokeTime, SMOKE_GAP, clusters);
    assert n > 0 ==> Apart(clusters[n - 1], clusters[n], SmokeTime, SMOKE_GAP);
    CutStep(Flat(clusters[..n]), SmokeTime, SMOKE_GAP, clusters[..n], clusters[n] + [s]);
    assert list + [s] == Flat(clusters[..n]) + (clusters[n] + [s]);
  }

  /** A smoke within the gap joins the open group. */
  lemma Joins(raw: seq<Smoke>, s: Smoke, side: int -> bool, clusters: seq<seq<Smoke>>, groups: seq<Group>, open: int,
              last: real)
    requires Open(raw, side, side(s.player), clusters, groups, open, last) && open >= 0 && s.t - last <= SMOKE_GAP
    ensures var n := |clusters| - 1;
            var g := groups[open].(participants := groups[open].participants + {s.player});
            && clusters != []
            && Open(raw + [s], side, side(s.player), clusters[..n] + [clusters[n] + [s]], groups[open := g], open, s.t)
            && Groups(groups[open := g], !side(s.player)) == Groups(groups, !side(s.player))
  {
    hide Cut, Groups, Of;
    var radiant, n := side(s.player), |clusters| - 1;
    var g := groups[open].(participants := groups[open].participants + {s.player});
    OfStep(raw, s, side, radiant);
    CutGrows(Of(raw, side, radiant), clusters, s);
    GroupsUpdate(groups, open, g);
    var c := clusters[n];
    assert groups[open] == Summary(c, radiant);
    assert (set x | x in c + [s] :: x.player) == (set x | x in c :: x.player) + {s.player};
    assert g == Summary(c + [s], radiant);
    var mine := Groups(groups, radiant);
    assert Summarised(clusters[..n] + [c + [s]], radiant, mine[..|mine| - 1] + [g]);
  }

  /** One side's groups are the clusters of its own smokes. */
  ghost predicate Alone(raw: seq<Smoke>, side: int -> bool, radiant: bool, groups: seq<Group>) {
    exists cut :: Cut(Of(raw, side, radiant), SmokeTime, SMOKE_GAP, cut)
        && Summarised(cut, radiant, Groups(groups, radiant))
  }

  /** Both sides in one pass: each side's groups are those of its own smokes alone. */
  method SmokeGroups(raw: seq<Smoke>, side: int -> bool) returns (groups: seq<Group>)
    ensures Alone(raw, side, true, groups) && Alone(raw, side, false, groups)
  {
    hide Cut, Summarised, Groups, Of;
    groups := [];
    ghost var radiant: seq<seq<Smoke>>, dire: seq<seq<Smoke>> := [], [];
    var open, last := [-1, -1], [0.0, 0.0];
    NothingOpen(raw, side);
    for i := 0 to |raw|
      invariant |open| == |last| == 2
      invariant Open(raw[..i], side, true, radiant, groups, open[0], last[0])
      invariant Open(raw[..i], side, false, dire, groups, open[1], last[1])
    {
      var ev := raw[i];
      assert raw[..i + 1] == raw[..i] + [ev];
      var s := if side(ev.player) then 0 else 1;
      ghost var mine, other := if s == 0 then radiant else dire, if s == 0 then dire else radiant;
      ghost var before := groups;
      if open[s] >= 0 && ev.t - last[s] <= SMOKE_GAP {
        Joins(raw[..i], ev, side, mine, groups, open[s], last[s]);
        groups := groups[open[s] := groups[open[s]].(participants := groups[open[s]].participants + {ev.player})];
        mine := mine[..|mine| - 1] + [mine[|mine| - 1] + [ev]];
      } else {
        Starts(raw[..i], ev, side, mine, groups, open[s], last[s]);
        GroupsStep(groups, Group(ev.t, s == 0, {ev.player}), s != 0);
        groups := groups + [Group(ev.t, s == 0, {ev.player})];
        open := open[s := |groups| - 1];
        mine := mine + [[ev]];
      }
      last := last[s := ev.t];
      OtherSide(raw[..i], ev, side, other, before, groups, open[1 - s], last[1 - s]);
      radiant, dire := if s == 0 then mine else other, if s == 0 then other else mine;
    }
    assert raw[..|raw|] == raw;
  }

  lemma NothingOpen(raw: seq<Smoke>, side: int -> bool)
    ensures forall radiant :: Open(raw[..0], side, radiant, [], [], -1, 0.0)
  {
  }

  /** So what one side's groups are does not depend on the other side's smokes. */
  lemma SidesAreIndependent(raw: seq<Smoke>, raw': seq<Smoke>, side: int -> bool, radiant: bool, groups: seq<Group>,
                            groups': seq<Group>)
    requires Of(raw, side, radiant) == Of(raw', side, radiant)
    requires Alone(raw, side, radiant, groups) && Alone(raw', side, radiant, groups')
    ensures Groups(groups, radiant) == Groups(groups', radiant)
  {
    hide Cut, Groups, Of;
    var cut :| Cut(Of(raw, side, radiant), SmokeTime, SMOKE_GAP, cut)
        && Summarised(cut, radiant, Groups(groups, radiant));
    var cut' :| Cut(Of(raw', side, radiant), SmokeTime, SMOKE_GAP, cut')
        && Summarised(cut', radiant, Groups(groups', radiant));
    CutIsUnique(Of(raw, side, radiant), SmokeTime, SMOKE_GAP, cut, cut');
  }

  // ---- in plain numbers

  lemma NotAcross<T>(list: seq<T>, time: T -> real, gap: real, clusters: seq<seq<T>>, i: nat, m: nat)
    requires Cut(list, time, gap, clusters) && clusters != [] && i + m <= |list|
    requires forall j | i < j < i + m :: time(list[j]) - time(list[j - 1]) <= gap
    ensures var before := Flat(clusters[..|clusters| - 1]); i + m <= |before| || i >= |before|
  {
    hide Cut, Flat;
    CutShorter(list, time, gap, clusters);
    var before := Flat(clusters[..|clusters| - 1]);
    assert list[|before|] == clusters[|clusters| - 1][0];
    if before != [] { assert list[|before| - 1] == before[|before| - 1]; }
  }

  /** Events that follow one another within the gap are in one cluster. */
  lemma {:induction false} NearStayTogether<T>(list: seq<T>, time: T -> real, gap: real, clusters: seq<seq<T>>, i: nat,
                                               m: nat) returns (c: nat, k: nat)
    requires Cut(list, time, gap, clusters) && m > 0 && i + m <= |list|
    requires forall j | i < j < i + m :: time(list[j]) - time(list[j - 1]) <= gap
    ensures c < |clusters| && k + m <= |clusters[c]| && clusters[c][k..k + m] == list[i..i + m]
    decreases |clusters|
  {
    hide Cut, Flat;
    NothingCut(list, time, gap, clusters);
    CutShorter(list, time, gap, clusters);
    var n := |clusters| - 1;
    var before := Flat(clusters[..n]);
    if i + m <= |before| {
      assert forall j | 0 <= j < |before| :: before[j] == list[j];
      c, k := NearStayTogether(before, time, gap, clusters[..n], i, m);
      assert before[i..i + m] == list[i..i + m];
    } else {
      NotAcross(list, time, gap, clusters, i, m);
      c, k := n, i - |before|;
    }
  }

  /** The deaths of one side. */
  ghost function Fallen(c: seq<Death>, radiant: bool): set<nat> {
    set k | 0 <= k < |c| && c[k].radiant == radiant
  }

  lemma FallenStep(c: seq<Death>, d: Death, radiant: bool)
    ensures Fallen(c + [d], radiant) == Fallen(c, radiant) + if d.radiant == radiant then {|c|} else {}
    ensures |c| !in Fallen(c, radiant)
  {
    var all := c + [d];
    forall k: nat
      ensures k in Fallen(all, radiant) <==> k in Fallen(c, radiant) || (k == |c| && d.radiant == radiant)
    {
      if k < |c| { assert all[k] == c[k]; }
    }
  }

  lemma {:induction false} LossesAreFallen(c: seq<Death>, radiant: bool)
    ensures Losses(c, radiant) == |Fallen(c, radiant)|
  {
    if c == [] {
      assert Fallen(c, radiant) == {};
    } else {
      hide Fallen;
      var n := |c| - 1;
      LossesAreFallen(c[..n], radiant);
      FallenStep(c[..n], c[n], radiant);
      assert c == c[..n] + [c[n]];
    }
  }

  /** A fight in numbers: three deaths at least, each at most twenty seconds after the one before; it lasts from the
      first to the last, and the side with fewer deaths wins. */
  lemma FightInNumbers(deaths: seq<Death>, fights: seq<Fight>, i: nat)
    requires AreTeamfights(deaths, fights) && i < |fights|
    ensures var f := fights[i];
            && |f.deaths| >= 3 && f.start == f.deaths[0].t && f.end == f.deaths[|f.deaths| - 1].t
            && (forall k | 0 < k < |f.deaths| :: f.deaths[k].t - f.deaths[k - 1].t <= 20.0)
            && f.radiantDeaths == |Fallen(f.deaths, true)| && f.direDeaths == |Fallen(f.deaths, false)|
            && (f.winner == Radiant <==> |Fallen(f.deaths, true)| < |Fallen(f.deaths, false)|)
            && (f.winner == Dire <==> |Fallen(f.deaths, false)| < |Fallen(f.deaths, true)|)
  {
    hide Cut, Big, IsFight, Fallen;
    var clusters :| Cut(deaths, TimeOf, WINDOW, clusters) && Fights(Big(clusters), fights);
    BigMembers(clusters);
    var c := Big(clusters)[i];
    assert c in Big(clusters) && IsFight(c, fights[i]);
    TightOf(deaths, clusters, c);
    FightMeans(c, fights[i]);
  }

  lemma FightMeans(c: seq<Death>, f: Fight)
    requires IsFight(c, f)
    ensures f.deaths == c && c != [] && f.start == c[0].t && f.end == c[|c| - 1].t
    ensures f.radiantDeaths == |Fallen(f.deaths, true)| && f.direDeaths == |Fallen(f.deaths, false)|
    ensures f.winner == Radiant <==> |Fallen(f.deaths, true)| < |Fallen(f.deaths, false)|
    ensures f.winner == Dire <==> |Fallen(f.deaths, false)| < |Fallen(f.deaths, true)|
  {
    hide Losses;
    LossesAreFallen(c, true);
    LossesAreFallen(c, false);
  }

  lemma TightOf(deaths: seq<Death>, clusters: seq<seq<Death>>, c: seq<Death>)
    requires Cut(deaths, TimeOf, WINDOW, clusters) && c in clusters
    ensures c != [] && forall k | 0 < k < |c| :: c[k].t - c[k - 1].t <= 20.0
  {
    var j :| 0 <= j < |clusters| && clusters[j] == c;
    assert Tight(c, TimeOf, WINDOW);
    forall k | 0 < k < |c| ensures c[k].t - c[k - 1].t <= 20.0 { assert TimeOf(c[k]) - TimeOf(c[k - 1]) <= WINDOW; }
  }

  lemma BigIsAFight(clusters: seq<seq<Death>>, fights: seq<Fight>, c: nat) returns (which: nat)
    requires Fights(Big(clusters), fights) && c < |clusters| && |clusters[c]| >= 3
    ensures which < |fights| && fights[which].deaths == clusters[c]
  {
    hide Big, Losses;
    BigMembers(clusters);
    assert clusters[c] in clusters && clusters[c] in Big(clusters);
    which :| 0 <= which < |Big(clusters)| && Big(clusters)[which] == clusters[c];
    assert IsFight(Big(clusters)[which], fights[which]);
  }

  /** Three deaths or more that follow one another within twenty seconds are in one fight. */
  lemma ThreeDeathsAreAFight(deaths: seq<Death>, fights: seq<Fight>, i: nat, m: nat) returns (which: nat, k: nat)
    requires AreTeamfights(deaths, fights) && m >= 3 && i + m <= |deaths|
    requires forall j | i < j < i + m :: deaths[j].t - deaths[j - 1].t <= 20.0
    ensures which < |fights| && k + m <= |fights[which].deaths| && fights[which].deaths[k..k + m] == deaths[i..i + m]
  {
    hide Cut, Big, Fights;
    var clusters :| Cut(deaths, TimeOf, WINDOW, clusters) && Fights(Big(clusters), fights);
    forall j | i < j < i + m ensures TimeOf(deaths[j]) - TimeOf(deaths[j - 1]) <= WINDOW {}
    var c;
    c, k := NearStayTogether(deaths, TimeOf, WINDOW, clusters, i, m);
    which := BigIsAFight(clusters, fights, c);
  }

  /** Smokes of one side that follow one another within four seconds are one group; with a longer pause a new one
      begins. */
  lemma SmokesInNumbers(raw: seq<Smoke>, side: int -> bool, radiant: bool, groups: seq<Group>, i: nat)
    requires Alone(raw, side, radiant, groups) && i + 1 < |Of(raw, side, radiant)|
    ensures var mine := Of(raw, side, radiant);
            if mine[i + 1].t - mine[i].t <= 4.0
            then exists g :: g in Groups(groups, radiant) && mine[i].player in g.participants
                     && mine[i + 1].player in g.participants
            else exists g :: g in Groups(groups, radiant) && g.start == mine[i + 1].t
                     && mine[i + 1].player in g.participants
  {
    hide Cut, Groups, Of;
    var mine := Of(raw, side, radiant);
    var cut :| Cut(mine, SmokeTime, SMOKE_GAP, cut) && Summarised(cut, radiant, Groups(groups, radiant));
    if mine[i + 1].t - mine[i].t <= 4.0 {
      assert SmokeTime(mine[i + 1]) - SmokeTime(mine[i]) <= SMOKE_GAP;
      var c, k := NearStayTogether(mine, SmokeTime, SMOKE_GAP, cut, i, 2);
      assert cut[c][k] == cut[c][k..k + 2][0] == mine[i..i + 2][0];
      assert cut[c][k + 1] == cut[c][k..k + 2][1] == mine[i..i + 2][1];
      var g := Groups(groups, radiant)[c];
      assert mine[i] in cut[c] && mine[i + 1] in cut[c] && g == Summary(cut[c], radiant);
    } else {
      var c := GapBegins(mine, cut, i);
      var g := Groups(groups, radiant)[c];
      assert cut[c][0] in cut[c] && g == Summary(cut[c], radiant);
    }
  }

  lemma {:induction false} GapBegins(mine: seq<Smoke>, cut: seq<seq<Smoke>>, i: nat) returns (c: nat)
    requires Cut(mine, SmokeTime, SMOKE_GAP, cut) && i + 1 < |mine| && mine[i + 1].t - mine[i].t > 4.0
    ensures c < |cut| && cut[c] != [] && cut[c][0] == mine[i + 1]
    decreases |cut|
  {
    hide Cut, Flat;
    NothingCut(mine, SmokeTime, SMOKE_GAP, cut);
    CutShorter(mine, SmokeTime, SMOKE_GAP, cut);
    var n := |cut| - 1;
    var before := Flat(cut[..n]);
    if i + 1 < |before| {
      c := GapBegins(before, cut[..n], i);
    } else {
      c := n;
      if i + 1 > |before| { WithinLast(mine, SmokeTime, SMOKE_GAP, cut, i + 1); }
    }
  }
}
