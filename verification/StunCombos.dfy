/** Chains of stuns on one target and the control seconds they waste (main.go, detectStunCombos). Times are ticks. */
module StunCombos {
  import opened Sets
  import opened Sorting

  datatype Stun = Stun(t: int, dur: int, attacker: nat, target: nat)

  function End(a: Stun): int {
    a.t + a.dur
  }

  /** Starts are not negative and durations are positive. */
  ghost predicate Valid(apps: seq<Stun>) {
    forall a | a in apps :: a.t >= 0 && a.dur > 0
  }

  ghost predicate Sorted(apps: seq<Stun>) {
    forall i, j | 0 <= i < j < |apps| :: apps[i].t <= apps[j].t
  }

  // ---- what a chain wastes

  ghost function Interval(lo: int, hi: int): (ticks: set<int>)
    ensures forall x :: x in ticks <==> lo <= x < hi
    ensures |ticks| == if lo < hi then hi - lo else 0
    decreases hi - lo
  {
    if lo >= hi then {} else Interval(lo, hi - 1) + {hi - 1}
  }

  /** The ticks under one stun. */
  ghost function Span(a: Stun): set<int> {
    Interval(a.t, End(a))
  }

  /** The ticks under any stun of the chain. */
  ghost function Cover(chain: seq<Stun>): set<int> {
    if chain == [] then {} else Cover(chain[..|chain| - 1]) + Span(chain[|chain| - 1])
  }

  ghost function Total(chain: seq<Stun>): int {
    if chain == [] then 0 else Total(chain[..|chain| - 1]) + chain[|chain| - 1].dur
  }

  /** The ticks of control that fall on a target already under control. */
  ghost function Waste(chain: seq<Stun>): int {
    Total(chain) - |Cover(chain)|
  }

  /** The end of the control envelope; 0 when there is none. */
  ghost function Envelope(chain: seq<Stun>): nat {
    if chain == [] then 0
    else
      var before := Envelope(chain[..|chain| - 1]);
      if End(chain[|chain| - 1]) > before then End(chain[|chain| - 1]) else before
  }

  /** From the last start on, the control seen so far is one interval up to the envelope's end. */
  lemma {:induction false} CoverFrom(chain: seq<Stun>, t: int)
    requires Valid(chain) && t >= 0 && forall a | a in chain :: a.t <= t
    ensures forall x | x >= t :: x in Cover(chain) <==> x < Envelope(chain)
  {
    if chain != [] {
      var n := |chain| - 1;
      assert chain[n] in chain && forall a | a in chain[..n] :: a in chain;
      CoverFrom(chain[..n], t);
    }
  }

  /** The overlap the sweep adds for the next stun. */
  function Overlap(envEnd: int, a: Stun): int {
    if envEnd - a.t > 0 then (if End(a) < envEnd then a.dur else envEnd - a.t) else 0
  }

  lemma LastStart(chain: seq<Stun>, a: Stun)
    requires Valid(chain + [a]) && Sorted(chain + [a])
    ensures Valid(chain) && Sorted(chain) && a.t >= 0 && a.dur > 0
    ensures forall b | b in chain :: b.t <= a.t
  {
    var all := chain + [a];
    assert all[|chain|] == a && a in all;
    forall b | b in chain ensures b.t <= a.t && b in all {
      var i :| 0 <= i < |chain| && chain[i] == b;
      assert all[i] == b;
    }
    assert forall i | 0 <= i < |chain| :: all[i] == chain[i];
  }

  /** What the next stun adds to the ticks under control. */
  lemma NewTicks(chain: seq<Stun>, a: Stun)
    requires Valid(chain + [a]) && Sorted(chain + [a])
    ensures |Cover(chain) + Span(a)| == |Cover(chain)| + a.dur - Overlap(Envelope(chain), a)
  {
    hide Cover, Envelope, Sorted, Valid;
    LastStart(chain, a);
    CoverFrom(chain, a.t);
    var env := Envelope(chain);
    var lo := if env <= a.t then a.t else if End(a) < env then End(a) else env;
    NewSpan(Cover(chain), a, env, lo);
    assert Cover(chain) + Span(a) == Cover(chain) + Interval(lo, End(a));
    DisjointSize(Cover(chain), Interval(lo, End(a)));
  }

  /** What a stun's ticks add to cover, when cover holds exactly the ticks before env from its start on. */
  lemma NewSpan(cover: set<int>, a: Stun, env: int, lo: int)
    requires forall x | x >= a.t :: x in cover <==> x < env
    requires lo == if env <= a.t then a.t else if End(a) < env then End(a) else env
    ensures cover + Span(a) == cover + Interval(lo, End(a)) && cover !! Interval(lo, End(a))
  {
    forall x ensures x in cover + Span(a) <==> x in cover + Interval(lo, End(a)) {
    }
  }

  lemma ChainStep(chain: seq<Stun>, a: Stun)
    ensures Total(chain + [a]) == Total(chain) + a.dur
    ensures Cover(chain + [a]) == Cover(chain) + Span(a)
    ensures Envelope(chain + [a]) == if End(a) > Envelope(chain) then End(a) else Envelope(chain)
  {
    var all := chain + [a];
    assert all[..|all| - 1] == chain;
  }

  /** The sweep's overlap is the true one: the waste grows by the part of the stun already under control. */
  lemma WasteStep(chain: seq<Stun>, a: Stun)
    requires Valid(chain + [a]) && Sorted(chain + [a])
    ensures Waste(chain + [a]) == Waste(chain) + Overlap(Envelope(chain), a)
  {
    hide Cover, Envelope, Total, Overlap;
    ChainStep(chain, a);
    NewTicks(chain, a);
  }

  // ---- chains are maximal runs

  /** Each stun of the chain lands before the control of the ones before it, and the grace, have run out. */
  ghost predicate Linked(chain: seq<Stun>, grace: nat) {
    chain != [] && forall i | 0 < i < |chain| :: chain[i].t <= Envelope(chain[..i]) + grace
  }

  ghost function Flat(chains: seq<seq<Stun>>): seq<Stun> {
    if chains == [] then [] else Flat(chains[..|chains| - 1]) + chains[|chains| - 1]
  }

  /** The stuns cut into runs, each as long as it can be. */
  ghost predicate Runs(apps: seq<Stun>, grace: nat, chains: seq<seq<Stun>>) {
    && Flat(chains) == apps
    && (forall i | 0 <= i < |chains| :: Linked(chains[i], grace))
    && (forall i | 0 < i < |chains| :: chains[i] != [] && chains[i][0].t > Envelope(chains[i - 1]) + grace)
  }

  // ---- counting the chains of two attackers or more

  function Attackers(chain: seq<Stun>): set<nat> {
    set a | a in chain :: a.attacker
  }

  predicate Joint(chain: seq<Stun>) {
    |chain| >= 2 && |Attackers(chain)| >= 2
  }

  ghost function Count(chains: seq<seq<Stun>>, p: nat): nat {
    if chains == [] then 0
    else
      var c := chains[|chains| - 1];
      Count(chains[..|chains| - 1], p) + if Joint(c) && p in Attackers(c) then 1 else 0
  }

  ghost function Wasted(chains: seq<seq<Stun>>, p: nat): int {
    if chains == [] then 0
    else
      var c := chains[|chains| - 1];
      Wasted(chains[..|chains| - 1], p) + if Joint(c) && p in Attackers(c) then Waste(c) else 0
  }

  ghost predicate Slots(apps: seq<Stun>, n: nat) {
    forall a | a in apps :: a.attacker < n
  }

  ghost predicate Counted(before: seq<nat>, after: seq<nat>, chain: seq<Stun>) {
    && |after| == |before|
    && forall p | 0 <= p < |after| :: after[p] == before[p] + if Joint(chain) && p in Attackers(chain) then 1 else 0
  }

  ghost predicate Charged(before: seq<int>, after: seq<int>, chain: seq<Stun>) {
    && |after| == |before|
    && forall p | 0 <= p < |after| ::
         after[p] == before[p] + if Joint(chain) && p in Attackers(chain) then Waste(chain) else 0
  }

  /** Every joint chain is counted for, and charged to, each of its attackers. */
  ghost predicate Tallied(counts0: seq<nat>, wasted0: seq<int>, counts: seq<nat>, wasted: seq<int>,
                          chains: seq<seq<Stun>>)
  {
    && |counts| == |counts0| && |wasted| == |wasted0|
    && (forall p | 0 <= p < |counts| :: counts[p] == counts0[p] + Count(chains, p))
    && (forall p | 0 <= p < |wasted| :: wasted[p] == wasted0[p] + Wasted(chains, p))
  }

  /** A finished chain counts for each of its attackers, with all it wasted. */
  method Flush(chain: seq<Stun>, chainWasted: int, counts: array<nat>, wasted: array<int>)
    requires counts.Length == wasted.Length && Slots(chain, counts.Length)
    requires chainWasted == Waste(chain)
    modifies counts, wasted
    ensures Counted(old(counts[..]), counts[..], chain) && Charged(old(wasted[..]), wasted[..], chain)
  {
    hide Waste;
    if |chain| >= 2 {
      var attackers := Attackers(chain);
      if |attackers| >= 2 {
        var todo := attackers;
        while todo != {}
          invariant todo <= attackers
          invariant forall p: nat | p < counts.Length ::
                      && counts[p] == old(counts[p]) + (if p in attackers && p !in todo then 1 else 0)
                      && wasted[p] == old(wasted[p]) + (if p in attackers && p !in todo then chainWasted else 0)
          decreases |todo|
        {
          ghost var some := Member(todo);
          var atk: nat :| atk in todo;
          todo := todo - {atk};
          counts[atk] := counts[atk] + 1;
          wasted[atk] := wasted[atk] + chainWasted;
        }
      }
    }
  }

  /** The sweep's state after some stuns: the finished chains, and the one being built. */
  ghost predicate Swept(apps: seq<Stun>, grace: nat, chains: seq<seq<Stun>>, chain: seq<Stun>) {
    && Flat(chains) + chain == apps
    && (apps != [] ==> Linked(chain, grace))
    && (forall i | 0 <= i < |chains| :: Linked(chains[i], grace))
    && (forall i | 0 < i < |chains| :: chains[i] != [] && chains[i][0].t > Envelope(chains[i - 1]) + grace)
    && (chains != [] ==> chain != [] && chain[0].t > Envelope(chains[|chains| - 1]) + grace)
  }

  lemma Extends(apps: seq<Stun>, grace: nat, chains: seq<seq<Stun>>, chain: seq<Stun>, a: Stun)
    requires Swept(apps, grace, chains, chain)
    requires chain == [] || a.t <= Envelope(chain) + grace
    ensures Swept(apps + [a], grace, chains, chain + [a])
  {
    hide Envelope, Flat;
    var longer := chain + [a];
    forall i | 0 < i < |longer| ensures longer[i].t <= Envelope(longer[..i]) + grace {
      assert longer[..i] == chain[..i];
      if i == |chain| { assert chain[..i] == chain; }
    }
  }

  lemma Starts(apps: seq<Stun>, grace: nat, chains: seq<seq<Stun>>, chain: seq<Stun>, a: Stun)
    requires Swept(apps, grace, chains, chain) && chain != [] && a.t > Envelope(chain) + grace
    ensures Swept(apps + [a], grace, chains + [chain], [a])
  {
    hide Envelope;
    var more := chains + [chain];
    assert more[..|chains|] == chains;
    assert Flat(more) == apps;
  }

  lemma Finished(apps: seq<Stun>, grace: nat, chains: seq<seq<Stun>>, chain: seq<Stun>)
    requires Swept(apps, grace, chains, chain)
    ensures Runs(apps, grace, if chain == [] then chains else chains + [chain])
  {
    hide Envelope;
    var more := chains + [chain];
    assert more[..|chains|] == chains;
  }

  lemma OneMore(counts0: seq<nat>, wasted0: seq<int>, counts1: seq<nat>, wasted1: seq<int>, counts: seq<nat>,
                wasted: seq<int>,
                chains: seq<seq<Stun>>, chain: seq<Stun>)
    requires Tallied(counts0, wasted0, counts1, wasted1, chains)
    requires Counted(counts1, counts, chain) && Charged(wasted1, wasted, chain)
    ensures Tallied(counts0, wasted0, counts, wasted, if chain == [] then chains else chains + [chain])
  {
    hide Waste, Attackers;
    assert (chains + [chain])[..|chains|] == chains;
  }

  lemma FirstStart(apps: seq<Stun>, i: nat)
    requires i < |apps| && Valid(apps)
    ensures apps[i].t >= 0
  {
    assert apps[i] in apps;
  }

  lemma Stretch(apps: seq<Stun>, lo: nat, hi: nat)
    requires lo <= hi <= |apps| && Valid(apps) && Sorted(apps)
    ensures Valid(apps[lo..hi]) && Sorted(apps[lo..hi])
    ensures forall n | Slots(apps, n) :: Slots(apps[lo..hi], n)
  {
    assert forall a | a in apps[lo..hi] :: a in apps;
  }

  /** The chain being built is a stretch of the list. */
  lemma ChainOk(apps: seq<Stun>, grace: nat, i: nat, chains: seq<seq<Stun>>, chain: seq<Stun>, n: nat)
    requires i <= |apps| && Swept(apps[..i], grace, chains, chain) && Valid(apps) && Sorted(apps) && Slots(apps, n)
    ensures Slots(chain, n)
    ensures i < |apps| ==>
              && apps[i].t >= 0 && Valid(chain + [apps[i]]) && Sorted(chain + [apps[i]])
              && Valid([apps[i]]) && Sorted([apps[i]])
  {
    hide Linked, Envelope, Valid, Sorted, Slots;
    var lo := |Flat(chains)|;
    assert apps[..i][lo..] == chain;
    Stretch(apps, lo, i);
    if i < |apps| {
      Stretch(apps, lo, i + 1);
      Stretch(apps, i, i + 1);
      assert chain + [apps[i]] == apps[lo..i + 1] && [apps[i]] == apps[i..i + 1];
      FirstStart(apps, i);
    }
  }

  /** The stuns on one target, by start, in one pass. */
  method Sweep(apps: seq<Stun>, grace: nat, counts: array<nat>, wasted: array<int>)
               returns (ghost chains: seq<seq<Stun>>)
    requires counts.Length == wasted.Length && Slots(apps, counts.Length)
    requires Valid(apps) && Sorted(apps)
    modifies counts, wasted
    ensures Runs(apps, grace, chains)
    ensures Tallied(old(counts[..]), old(wasted[..]), counts[..], wasted[..], chains)
  {
    hide Waste, Cover, Total, Envelope, Swept, Runs, Valid, Sorted, Slots, Tallied, Counted, Charged;
    var chain: seq<Stun> := [];
    var envEnd, chainWasted := 0, 0;
    chains := [];
    Nothing(grace, counts[..], wasted[..]);
    for i := 0 to |apps|
      invariant Swept(apps[..i], grace, chains, chain)
      invariant envEnd == Envelope(chain) && chainWasted == Waste(chain)
      invariant Tallied(old(counts[..]), old(wasted[..]), counts[..], wasted[..], chains)
    {
      var a := apps[i];
      assert apps[..i + 1] == apps[..i] + [a];
      ChainOk(apps, grace, i, chains, chain, counts.Length);
      if |chain| > 0 && a.t <= envEnd + grace {
        Extends(apps[..i], grace, chains, chain, a);
        var ov := envEnd - a.t;
        if ov > 0 {
          if a.t + a.dur < envEnd {
            ov := a.dur;
          }
          chainWasted := chainWasted + ov;
        }
      } else {
        chains := Cut(apps[..i], grace, chains, chain, a, chainWasted, counts, wasted, old(counts[..]),
            old(wasted[..]));
        chain, envEnd, chainWasted := [], 0, 0;
        Nothing(grace, counts[..], wasted[..]);
        assert chain + [a] == [a];
      }
      ChainStep(chain, a);
      WasteStep(chain, a);
      chain := chain + [a];
      if a.t + a.dur > envEnd {
        envEnd := a.t + a.dur;
      }
    }
    assert apps[..|apps|] == apps;
    ChainOk(apps, grace, |apps|, chains, chain, counts.Length);
    Finished(apps, grace, chains, chain);
    label L:
    Flush(chain, chainWasted, counts, wasted);
    OneMore(old(counts[..]), old(wasted[..]), old@L(counts[..]), old@L(wasted[..]), counts[..], wasted[..], chains,
        chain);
    if chain != [] {
      chains := chains + [chain];
    }
  }

  /** The chain ends before stun a. */
  method Cut(ghost apps: seq<Stun>, ghost grace: nat, ghost chains: seq<seq<Stun>>, chain: seq<Stun>, ghost a: Stun,
             chainWasted: int,
             counts: array<nat>, wasted: array<int>, ghost counts0: seq<nat>, ghost wasted0: seq<int>)
    returns (ghost chains': seq<seq<Stun>>)
    requires counts.Length == wasted.Length && Slots(chain, counts.Length) && chainWasted == Waste(chain)
    requires Swept(apps, grace, chains, chain) && (chain == [] || a.t > Envelope(chain) + grace)
    requires Tallied(counts0, wasted0, counts[..], wasted[..], chains)
    modifies counts, wasted
    ensures Swept(apps + [a], grace, chains', [a])
    ensures Tallied(counts0, wasted0, counts[..], wasted[..], chains')
  {
    hide Waste, Envelope, Swept, Slots, Tallied, Counted, Charged;
    Flush(chain, chainWasted, counts, wasted);
    OneMore(counts0, wasted0, old(counts[..]), old(wasted[..]), counts[..], wasted[..], chains, chain);
    chains' := chains;
    if chain == [] {
      Extends(apps, grace, chains, chain, a);
      assert chain + [a] == [a];
    } else {
      Starts(apps, grace, chains, chain, a);
      chains' := chains + [chain];
    }
  }

  lemma Nothing(grace: nat, counts: seq<nat>, wasted: seq<int>)
    ensures Swept([], grace, [], []) && Envelope([]) == 0 && Waste([]) == 0
    ensures Tallied(counts, wasted, counts, wasted, [])
  {
  }

  // ---- all targets

  function Key(a: Stun): real {
    a.t as real
  }

  function On(apps: seq<Stun>, target: nat): seq<Stun> {
    if apps == [] then []
    else
      var a := apps[|apps| - 1];
      On(apps[..|apps| - 1], target) + if a.target == target then [a] else []
  }

  /** The stuns on a target in the order of their starts. */
  function Queue(apps: seq<Stun>, target: nat): seq<Stun> {
    StableSort(On(apps, target), Key)
  }

  lemma {:induction false} OnMembers(apps: seq<Stun>, target: nat)
    ensures forall a :: a in On(apps, target) <==> a in apps && a.target == target
  {
    if apps != [] { OnMembers(apps[..|apps| - 1], target); }
  }

  lemma QueueSpec(apps: seq<Stun>, target: nat, n: nat)
    requires Valid(apps) && Slots(apps, n)
    ensures Valid(Queue(apps, target)) && Sorted(Queue(apps, target)) && Slots(Queue(apps, target), n)
    ensures multiset(Queue(apps, target)) == multiset(On(apps, target))
  {
    hide StableSort, On;
    OnMembers(apps, target);
    StableSortSpec(On(apps, target), Key, (_, _) => true);
    StableSortPermutes(On(apps, target), Key);
    var sorted := Queue(apps, target);
    forall i, j | 0 <= i < j < |sorted| ensures sorted[i].t <= sorted[j].t {
      assert Key(sorted[i]) <= Key(sorted[j]);
    }
  }

  ghost function AllCounts(chains: seq<seq<seq<Stun>>>, p: nat): nat {
    if chains == [] then 0 else AllCounts(chains[..|chains| - 1], p) + Count(chains[|chains| - 1], p)
  }

  ghost function AllWasted(chains: seq<seq<seq<Stun>>>, p: nat): int {
    if chains == [] then 0 else AllWasted(chains[..|chains| - 1], p) + Wasted(chains[|chains| - 1], p)
  }

  /** counts and wasted are those of the maximal runs on every target. */
  ghost predicate Detected(apps: seq<Stun>, grace: nat, n: nat, counts: seq<nat>, wasted: seq<int>) {
    |counts| == |wasted| == n && exists chains: seq<seq<seq<Stun>>> ::
      && (forall a | a in apps :: a.target < |chains|)
      && (forall t: nat | t < |chains| :: Runs(Queue(apps, t), grace, chains[t]))
      && (forall p: nat | p < n :: counts[p] == AllCounts(chains, p) && wasted[p] == AllWasted(chains, p))
  }

  /** One more than the highest target. */
  method Targets(apps: seq<Stun>) returns (n: nat)
    ensures forall a | a in apps :: a.target < n
  {
    n := 0;
    for i := 0 to |apps|
      invariant forall j | 0 <= j < i :: apps[j].target < n
    {
      if apps[i].target >= n {
        n := apps[i].target + 1;
      }
    }
  }

  lemma OneMoreTarget(chains: seq<seq<seq<Stun>>>, one: seq<seq<Stun>>)
    ensures forall p :: AllCounts(chains + [one], p) == AllCounts(chains, p) + Count(one, p)
                        && AllWasted(chains + [one], p) == AllWasted(chains, p) + Wasted(one, p)
  {
    assert (chains + [one])[..|chains|] == chains;
  }

  lemma NoTargets()
    ensures forall p :: AllCounts([], p) == 0 && AllWasted([], p) == 0
  {
  }

  /** The combos and the wasted ticks of each of n players. */
  method Detect(apps: seq<Stun>, grace: nat, n: nat) returns (counts: seq<nat>, wasted: seq<int>)
    requires Valid(apps) && Slots(apps, n)
    ensures Detected(apps, grace, n, counts, wasted)
  {
    hide Valid, Sorted, Slots, Runs, Queue, Count, Wasted, AllCounts, AllWasted;
    NoTargets();
    var targets := Targets(apps);
    var count, waste := new nat[n](_ => 0), new int[n](_ => 0);
    ghost var chains: seq<seq<seq<Stun>>> := [];
    for t := 0 to targets
      invariant |chains| == t
      invariant forall u: nat | u < t :: Runs(Queue(apps, u), grace, chains[u])
      invariant forall p: nat | p < n :: count[p] == AllCounts(chains, p) && waste[p] == AllWasted(chains, p)
    {
      QueueSpec(apps, t, n);
      var queue := Queue(apps, t);
      ghost var one := Sweep(queue, grace, count, waste);
      OneMoreTarget(chains, one);
      chains := chains + [one];
    }
    counts, wasted := count[..], waste[..];
  }

  // ---- the chains are the only ones

  lemma {:induction false} CoverBelow(chain: seq<Stun>)
    ensures forall x | x in Cover(chain) :: x < Envelope(chain)
  {
    if chain != [] { CoverBelow(chain[..|chain| - 1]); }
  }

  lemma {:induction false} CoverAbove(chain: seq<Stun>, t: int)
    requires forall a | a in chain :: a.t >= t
    ensures forall x | x in Cover(chain) :: x >= t
  {
    if chain != [] {
      assert chain[|chain| - 1] in chain && forall a | a in chain[..|chain| - 1] :: a in chain;
      CoverAbove(chain[..|chain| - 1], t);
    }
  }

  lemma {:induction false} TogetherCover(a: seq<Stun>, b: seq<Stun>)
    ensures Cover(a + b) == Cover(a) + Cover(b) && Total(a + b) == Total(a) + Total(b)
  {
    hide Cover, Total, Envelope, Span;
    if b == [] {
      assert a + b == a;
      NoCover();
    } else {
      var n := |b| - 1;
      TogetherCover(a, b[..n]);
      assert a + b == (a + b[..n]) + [b[n]] && b == b[..n] + [b[n]];
      ChainStep(a + b[..n], b[n]);
      ChainStep(b[..n], b[n]);
    }
  }

  /** A list that starts after the envelope of the one before it has an envelope of its own. */
  lemma {:induction false} Joined(a: seq<Stun>, b: seq<Stun>)
    requires b != [] && b[0].dur > 0 && b[0].t >= Envelope(a)
    ensures Envelope(a + b) == Envelope(b)
  {
    hide Cover, Total, Envelope;
    var n := |b| - 1;
    assert a + b == (a + b[..n]) + [b[n]] && b == b[..n] + [b[n]];
    ChainStep(a + b[..n], b[n]);
    ChainStep(b[..n], b[n]);
    if n == 0 {
      assert b[..0] == [] && a + b[..0] == a;
      NoEnvelope();
    } else {
      Joined(a, b[..n]);
    }
  }

  lemma NoEnvelope()
    ensures Envelope([]) == 0
  {
  }

  /** One chain more on a sorted list: it starts after all control before it, and the grace, have run out. */
  lemma {:induction false} Apart(apps: seq<Stun>, grace: nat, chains: seq<seq<Stun>>)
    requires Valid(apps) && Sorted(apps) && Runs(apps, grace, chains) && chains != []
    ensures Envelope(apps) == Envelope(chains[|chains| - 1])
    ensures |chains| > 1 ==> chains[|chains| - 1][0].t > Envelope(Flat(chains[..|chains| - 1])) + grace
  {
    hide Cover, Total;
    var n := |chains| - 1;
    var before := Flat(chains[..n]);
    var last := chains[n];
    assert apps == before + last;
    if n == 0 {
      assert before == [] && apps == last;
    } else {
      assert apps[..|before|] == before;
      Stretch(apps, 0, |before|);
      Shorter(before, grace, chains);
      Apart(before, grace, chains[..n]);
      assert last[0] == apps[|before|] && last[0] in apps;
      Joined(before, last);
    }
  }

  lemma Shorter(before: seq<Stun>, grace: nat, chains: seq<seq<Stun>>)
    requires chains != [] && before == Flat(chains[..|chains| - 1])
    requires forall i | 0 <= i < |chains| :: Linked(chains[i], grace)
    requires forall i | 0 < i < |chains| :: chains[i] != [] && chains[i][0].t > Envelope(chains[i - 1]) + grace
    ensures Runs(before, grace, chains[..|chains| - 1])
  {
    hide Linked, Envelope, Flat;
  }

  /** What all chains of a target waste together is what the target's stuns waste: no control is counted twice and
      none is missed. */
  lemma {:induction false} NothingWastedTwice(apps: seq<Stun>, grace: nat, chains: seq<seq<Stun>>)
    requires Valid(apps) && Sorted(apps) && Runs(apps, grace, chains)
    ensures Waste(apps) == SumWaste(chains)
    decreases |chains|
  {
    hide Cover, Total, Envelope, Linked, Flat, Valid, Sorted;
    if chains == [] {
      assert Waste([]) == 0 by { Nothing(grace, [], []); }
      assert Flat(chains) == [] by { FlatNone(); }
    } else {
      var n := |chains| - 1;
      var before, last := Flat(chains[..n]), chains[n];
      FlatLast(chains);
      assert apps[0..|before|] == before && apps[|before|..|apps|] == last;
      Shorter(before, grace, chains);
      Stretch(apps, 0, |before|);
      Stretch(apps, |before|, |apps|);
      NothingWastedTwice(before, grace, chains[..n]);
      TogetherCover(before, last);
      LastIsApart(apps, grace, chains);
      DisjointSize(Cover(before), Cover(last));
    }
  }

  lemma FlatNone()
    ensures Flat([]) == []
  {
  }

  lemma FlatLast(chains: seq<seq<Stun>>)
    requires chains != []
    ensures Flat(chains) == Flat(chains[..|chains| - 1]) + chains[|chains| - 1]
  {
  }

  ghost function SumWaste(chains: seq<seq<Stun>>): int {
    if chains == [] then 0 else SumWaste(chains[..|chains| - 1]) + Waste(chains[|chains| - 1])
  }

  lemma LastIsApart(apps: seq<Stun>, grace: nat, chains: seq<seq<Stun>>)
    requires Valid(apps) && Sorted(apps) && Runs(apps, grace, chains) && chains != []
    requires Sorted(chains[|chains| - 1])
    ensures Cover(Flat(chains[..|chains| - 1])) !! Cover(chains[|chains| - 1])
  {
    hide Cover, Total, Envelope;
    var n := |chains| - 1;
    var before, last := Flat(chains[..n]), chains[n];
    CoverBelow(before);
    assert Linked(last, grace);
    FirstIsEarliest(last);
    CoverAbove(last, last[0].t);
    if n > 0 {
      Apart(apps, grace, chains);
      forall x | x in Cover(last) ensures x !in Cover(before) {
        assert x >= last[0].t > Envelope(before);
      }
    } else {
      assert before == [];
      NoCover();
    }
  }

  lemma NoCover()
    ensures Cover([]) == {} && Total([]) == 0
  {
  }

  lemma FirstIsEarliest(chain: seq<Stun>)
    requires Sorted(chain) && chain != []
    ensures forall a | a in chain :: a.t >= chain[0].t
  {
  }

  /** A chain begins at place i. */
  ghost predicate BeginsAt(chains: seq<seq<Stun>>, i: nat) {
    exists k :: 0 <= k < |chains| && |Flat(chains[..k])| == i
  }

  /** The chains are cut exactly where all control so far ran out more than the grace ago: so there is only one way
      to cut, and every chain is as long as it can be. */
  lemma {:induction false} CutWhereControlEnds(apps: seq<Stun>, grace: nat, chains: seq<seq<Stun>>, i: nat)
    requires Valid(apps) && Sorted(apps) && Runs(apps, grace, chains) && 0 < i < |apps|
    ensures BeginsAt(chains, i) <==> apps[i].t > Envelope(apps[..i]) + grace
  {
    hide Envelope, Linked, Valid, Sorted;
    var n := |chains| - 1;
    var before, last := Flat(chains[..n]), chains[n];
    assert apps == before + last;
    if i < |before| {
      Stretch(apps, 0, |before|);
      assert apps[..|before|] == before && apps[..i] == before[..i];
      Shorter(before, grace, chains);
      CutWhereControlEnds(before, grace, chains[..n], i);
      BeginsShorter(chains, i);
    } else if i == |before| {
      assert apps[..i] == before;
      assert |Flat(chains[..n])| == i;
      CutAtLast(apps, grace, chains);
    } else {
      assert apps[..i] == before + last[..i - |before|];
      WithinLast(apps, grace, chains, i);
      NotPastLast(chains, i);
    }
  }

  lemma NothingBefore(chains: seq<seq<Stun>>)
    requires chains != []
    ensures |chains| == 1 ==> Flat(chains[..|chains| - 1]) == []
  {
    if |chains| == 1 { assert chains[..0] == []; }
  }

  lemma CutAtLast(apps: seq<Stun>, grace: nat, chains: seq<seq<Stun>>)
    requires Valid(apps) && Sorted(apps) && Runs(apps, grace, chains) && chains != []
    requires Flat(chains[..|chains| - 1]) != [] && |Flat(chains[..|chains| - 1])| < |apps|
    ensures apps[|Flat(chains[..|chains| - 1])|].t > Envelope(Flat(chains[..|chains| - 1])) + grace
  {
    hide Envelope, Linked, Valid, Sorted;
    NothingBefore(chains);
    Apart(apps, grace, chains);
  }

  lemma WithinLast(apps: seq<Stun>, grace: nat, chains: seq<seq<Stun>>, i: nat)
    requires Valid(apps) && Sorted(apps) && Runs(apps, grace, chains) && chains != []
    requires |Flat(chains[..|chains| - 1])| < i < |apps|
    ensures apps[i].t <= Envelope(apps[..i]) + grace
  {
    hide Envelope;
    var n := |chains| - 1;
    var before, last := Flat(chains[..n]), chains[n];
    var j := i - |before|;
    assert Linked(last, grace);
    assert apps == before + last && last[..j] != [] && last[..j][0] == last[0];
    assert apps[..i] == before + last[..j];
    assert last[0] == apps[|before|] && last[0] in apps;
    if n > 0 {
      Apart(apps, grace, chains);
    } else {
      assert before == [];
      NoEnvelope();
    }
    Joined(before, last[..j]);
  }

  lemma {:induction false} FlatGrows(chains: seq<seq<Stun>>, k: nat)
    requires k <= |chains|
    ensures |Flat(chains[..k])| <= |Flat(chains)|
    decreases |chains|
  {
    if k < |chains| {
      var n := |chains| - 1;
      FlatGrows(chains[..n], k);
      assert chains[..n][..k] == chains[..k];
    } else {
      assert chains[..k] == chains;
    }
  }

  lemma BeginsShorter(chains: seq<seq<Stun>>, i: nat)
    requires chains != [] && i < |Flat(chains[..|chains| - 1])|
    ensures BeginsAt(chains, i) <==> BeginsAt(chains[..|chains| - 1], i)
  {
    hide Flat;
    var n := |chains| - 1;
    assert forall k | 0 <= k <= n :: chains[..n][..k] == chains[..k];
    if BeginsAt(chains, i) {
      var k :| 0 <= k < |chains| && |Flat(chains[..k])| == i;
      assert chains[..n][..k] == chains[..k];
    }
    if BeginsAt(chains[..n], i) {
      var k :| 0 <= k < n && |Flat(chains[..n][..k])| == i;
      assert chains[..n][..k] == chains[..k];
    }
  }

  lemma NotPastLast(chains: seq<seq<Stun>>, i: nat)
    requires chains != [] && i > |Flat(chains[..|chains| - 1])|
    ensures !BeginsAt(chains, i)
  {
    hide Flat;
    var n := |chains| - 1;
    forall k | 0 <= k < |chains| ensures |Flat(chains[..k])| < i {
      FlatGrows(chains[..n], k);
      assert chains[..n][..k] == chains[..k];
    }
  }

  // ---- the order of equal starts

  lemma {:induction false} EnvelopeIsMax(apps: seq<Stun>)
    ensures forall a | a in apps :: End(a) <= Envelope(apps)
    ensures Envelope(apps) == 0 || exists a :: a in apps && End(a) == Envelope(apps)
  {
    if apps != [] {
      var n := |apps| - 1;
      EnvelopeIsMax(apps[..n]);
      assert apps == apps[..n] + [apps[n]];
    }
  }

  lemma {:induction false} CoverHas(apps: seq<Stun>, x: int)
    ensures x in Cover(apps) <==> exists a :: a in apps && x in Span(a)
  {
    hide Span;
    if apps != [] {
      var n := |apps| - 1;
      CoverHas(apps[..n], x);
      assert apps == apps[..n] + [apps[n]];
    }
  }

  lemma TakenOut(b: seq<Stun>, x: Stun) returns (rest: seq<Stun>)
    requires x in b
    ensures multiset(rest) == multiset(b) - multiset{x} && |rest| == |b| - 1 && Total(b) == Total(rest) + x.dur
  {
    hide Total;
    var i :| 0 <= i < |b| && b[i] == x;
    rest := b[..i] + b[i + 1..];
    assert b == b[..i] + [x] + b[i + 1..];
    assert multiset(b) == multiset(b[..i]) + multiset{x} + multiset(b[i + 1..]);
    TogetherTotal(b[..i] + [x], b[i + 1..]);
    TogetherTotal(b[..i], [x]);
    TogetherTotal(b[..i], b[i + 1..]);
    assert Total([x]) == x.dur by { TotalOfOne(x); }
  }

  lemma TotalOfOne(x: Stun)
    ensures Total([x]) == x.dur
  {
    assert [x][..0] == [];
  }

  lemma {:induction false} TotalPermuted(a: seq<Stun>, b: seq<Stun>)
    requires multiset(a) == multiset(b)
    ensures Total(a) == Total(b)
  {
    assert |a| == |multiset(a)| == |multiset(b)| == |b|;
    if a != [] {
      var n := |a| - 1;
      assert a == a[..n] + [a[n]];
      assert a[n] in multiset(b);
      var rest := TakenOut(b, a[n]);
      TotalPermuted(a[..n], rest);
    }
  }

  lemma TogetherTotal(a: seq<Stun>, b: seq<Stun>)
    ensures Total(a + b) == Total(a) + Total(b)
  {
    TogetherCover(a, b);
  }

  /** What a chain counts for does not depend on the order of its stuns. */
  lemma SameStuns(a: seq<Stun>, b: seq<Stun>)
    requires multiset(a) == multiset(b)
    ensures Waste(a) == Waste(b) && Attackers(a) == Attackers(b) && Joint(a) == Joint(b) && Envelope(a) == Envelope(b)
  {
    hide Cover, Total, Envelope;
    assert forall x :: x in a <==> x in multiset(a);
    assert forall x :: x in b <==> x in multiset(b);
    assert |a| == |multiset(a)| == |multiset(b)| == |b|;
    TotalPermuted(a, b);
    EnvelopeIsMax(a);
    EnvelopeIsMax(b);
    forall x ensures x in Cover(a) <==> x in Cover(b) {
      CoverHas(a, x);
      CoverHas(b, x);
    }
    assert Cover(a) == Cover(b);
    forall x ensures x in Attackers(a) <==> x in Attackers(b) {
    }
    assert Attackers(a) == Attackers(b);
  }

  lemma EarlyPart(apps: seq<Stun>, i: nat, start: int)
    requires i <= |apps| && (forall k | 0 <= k < i :: apps[k].t < start) && forall k | i <= k < |apps| ::
             apps[k].t >= start
    ensures forall x :: multiset(apps[..i])[x] == if x.t < start then multiset(apps)[x] else 0
  {
    assert apps == apps[..i] + apps[i..];
    forall x ensures multiset(apps[..i])[x] == if x.t < start then multiset(apps)[x] else 0 {
      if x.t < start { assert x !in apps[i..]; } else { assert x !in apps[..i]; }
    }
  }

  lemma {:induction false} SplitAt(apps: seq<Stun>, start: int) returns (i: nat)
    requires Sorted(apps)
    ensures i <= |apps| && (forall k | 0 <= k < i :: apps[k].t < start) && forall k | i <= k < |apps| ::
            apps[k].t >= start
  {
    i := 0;
    while i < |apps| && apps[i].t < start
      invariant i <= |apps| && forall k | 0 <= k < i :: apps[k].t < start
    {
      i := i + 1;
    }
  }

  /** A cut of one order is a cut of the other, with the same stuns before it. */
  lemma SameCut(a: seq<Stun>, b: seq<Stun>, grace: nat, i: nat)
    requires Valid(a) && Sorted(a) && Sorted(b) && multiset(a) == multiset(b) && 0 < i < |a|
    requires a[i].t > Envelope(a[..i]) + grace
    ensures i < |b| && multiset(a[..i]) == multiset(b[..i]) && b[i].t > Envelope(b[..i]) + grace
  {
    hide Envelope;
    var start := a[i].t;
    EnvelopeIsMax(a[..i]);
    forall k | 0 <= k < i ensures a[k].t < start {
      assert a[k] in a[..i] && a[k] in a;
    }
    EarlyPart(a, i, start);
    var j := SplitAt(b, start);
    EarlyPart(b, j, start);
    SameCounts(a[..i], b[..j]);
    assert |a| == |multiset(a)| == |multiset(b)| == |b|;
    SameStuns(a[..i], b[..i]);
  }

  lemma SameCounts(a: seq<Stun>, b: seq<Stun>)
    requires forall x :: multiset(a)[x] == multiset(b)[x]
    ensures multiset(a) == multiset(b) && |a| == |b|
  {
    assert multiset(a) == multiset(b);
    assert |a| == |multiset(a)| && |b| == |multiset(b)|;
  }

  lemma LastBegins(chains: seq<seq<Stun>>, i: nat)
    requires BeginsAt(chains, i)
    ensures chains != [] && i <= |Flat(chains[..|chains| - 1])|
  {
    hide Flat;
    var n := |chains| - 1;
    var k :| 0 <= k < |chains| && |Flat(chains[..k])| == i;
    assert chains[..n][..k] == chains[..k];
    FlatGrows(chains[..n], k);
  }

  /** The last chain of one order begins no later than that of the other. */
  lemma LastNotLater(a: seq<Stun>, b: seq<Stun>, grace: nat, ca: seq<seq<Stun>>, cb: seq<seq<Stun>>)
    requires Valid(a) && Sorted(a) && Runs(a, grace, ca) && ca != []
    requires Valid(b) && Sorted(b) && Runs(b, grace, cb) && cb != [] && multiset(a) == multiset(b)
    ensures var i := |Flat(ca[..|ca| - 1])|;
            i <= |Flat(cb[..|cb| - 1])| && i < |a| && i < |b| && multiset(a[..i]) == multiset(b[..i])
  {
    hide Flat, Envelope, Valid, Sorted;
    var n := |ca| - 1;
    var i := |Flat(ca[..n])|;
    assert |a| == |multiset(a)| == |multiset(b)| == |b|;
    FlatLast(ca);
    assert Linked(ca[n], grace);
    if i > 0 {
      assert BeginsAt(ca, i);
      CutWhereControlEnds(a, grace, ca, i);
      SameCut(a, b, grace, i);
      CutWhereControlEnds(b, grace, cb, i);
      LastBegins(cb, i);
    } else {
      assert a[..0] == b[..0];
    }
  }

  lemma NoStuns(grace: nat, chains: seq<seq<Stun>>)
    requires Runs([], grace, chains)
    ensures chains == []
  {
    if chains != [] { LinkedSomething(grace, chains); }
  }

  lemma LinkedSomething(grace: nat, chains: seq<seq<Stun>>)
    requires chains != [] && Linked(chains[|chains| - 1], grace)
    ensures Flat(chains) != []
  {
    FlatLast(chains);
  }

  lemma SomeStuns(apps: seq<Stun>, grace: nat, chains: seq<seq<Stun>>)
    requires Runs(apps, grace, chains) && apps != []
    ensures chains != []
  {
    FlatNone();
  }

  /** Two orders have the same last chain, up to its order, and the same stuns before it. */
  lemma SameLast(a: seq<Stun>, b: seq<Stun>, grace: nat, ca: seq<seq<Stun>>, cb: seq<seq<Stun>>)
    requires Valid(a) && Sorted(a) && Runs(a, grace, ca) && ca != []
    requires Valid(b) && Sorted(b) && Runs(b, grace, cb) && cb != [] && multiset(a) == multiset(b)
    ensures var u, v := ca[|ca| - 1], cb[|cb| - 1];
            Waste(u) == Waste(v) && Joint(u) == Joint(v) && Attackers(u) == Attackers(v)
    ensures multiset(Flat(ca[..|ca| - 1])) == multiset(Flat(cb[..|cb| - 1]))
  {
    hide Flat, Envelope, Linked, Valid, Sorted, Waste, Joint, Attackers, Runs;
    LastNotLater(a, b, grace, ca, cb);
    LastNotLater(b, a, grace, cb, ca);
    var i := |Flat(ca[..|ca| - 1])|;
    LastChain(a, grace, ca);
    LastChain(b, grace, cb);
    assert a == a[..i] + a[i..] && b == b[..i] + b[i..];
    assert multiset(a[i..]) == multiset(a) - multiset(a[..i]);
    SameStuns(a[i..], b[i..]);
  }

  /** Stuns that start at the same time may be sorted in any order: counts and waste are the same. */
  lemma {:induction false} TiesDoNotMatter(a: seq<Stun>, b: seq<Stun>, grace: nat, ca: seq<seq<Stun>>,
                                           cb: seq<seq<Stun>>, p: nat)
    requires Valid(a) && Sorted(a) && Runs(a, grace, ca)
    requires Valid(b) && Sorted(b) && Runs(b, grace, cb) && multiset(a) == multiset(b)
    ensures |ca| == |cb| && Count(ca, p) == Count(cb, p) && Wasted(ca, p) == Wasted(cb, p)
    decreases |ca|
  {
    hide Flat, Envelope, Linked, Valid, Sorted, Waste, Joint, Attackers, Runs;
    assert |a| == |multiset(a)| == |multiset(b)| == |b|;
    if a == [] {
      NoStuns(grace, ca);
      NoStuns(grace, cb);
    } else {
      SomeStuns(a, grace, ca);
      SomeStuns(b, grace, cb);
      var n, m := |ca| - 1, |cb| - 1;
      SameLast(a, b, grace, ca, cb);
      LastChain(a, grace, ca);
      LastChain(b, grace, cb);
      TiesDoNotMatter(Flat(ca[..n]), Flat(cb[..m]), grace, ca[..n], cb[..m], p);
    }
  }

  /** A cut list without its last chain. */
  lemma LastChain(apps: seq<Stun>, grace: nat, chains: seq<seq<Stun>>)
    requires Valid(apps) && Sorted(apps) && Runs(apps, grace, chains) && chains != []
    ensures var n := |chains| - 1;
            var i := |Flat(chains[..n])|;
            && i <= |apps| && chains[n] == apps[i..] && Flat(chains[..n]) == apps[..i]
            && Valid(apps[..i]) && Sorted(apps[..i]) && Runs(apps[..i], grace, chains[..n])
  {
    hide Envelope, Linked, Flat, Valid, Sorted;
    var before := Flat(chains[..|chains| - 1]);
    FlatLast(chains);
    assert apps[..|before|] == before && apps[0..|before|] == before;
    Shorter(before, grace, chains);
    Stretch(apps, 0, |before|);
  }

  /** The queues of a target, sorted one way or the other. */
  lemma SameTarget(apps: seq<Stun>, grace: nat, n: nat, t: nat, queue: seq<Stun>, a: seq<seq<Stun>>, b: seq<seq<Stun>>,
                   p: nat)
    requires Valid(apps) && Slots(apps, n) && Runs(Queue(apps, t), grace, a)
    requires Sorted(queue) && multiset(queue) == multiset(On(apps, t)) && Runs(queue, grace, b)
    ensures Count(a, p) == Count(b, p) && Wasted(a, p) == Wasted(b, p)
  {
    hide Sorted, Slots, Runs, On, Queue, Count, Wasted;
    QueueSpec(apps, t, n);
    forall x | x in queue ensures x.t >= 0 && x.dur > 0 {
      assert x in multiset(queue);
      OnMembers(apps, t);
    }
    TiesDoNotMatter(Queue(apps, t), queue, grace, a, b, p);
  }

  /** A target without stuns counts for nothing. */
  lemma NoTarget(apps: seq<Stun>, grace: nat, t: nat, queue: seq<Stun>, chains: seq<seq<Stun>>, p: nat)
    requires forall a | a in apps :: a.target != t
    requires multiset(queue) == multiset(On(apps, t)) && Runs(queue, grace, chains)
    ensures Count(chains, p) == 0 && Wasted(chains, p) == 0
  {
    hide Runs, On;
    NoneOn(apps, t);
    assert |queue| == |multiset(queue)| == |On(apps, t)|;
    assert queue == [];
    NoStuns(grace, chains);
  }

  lemma {:induction false} NoneOn(apps: seq<Stun>, t: nat)
    requires forall a | a in apps :: a.target != t
    ensures On(apps, t) == []
  {
    if apps != [] {
      var n := |apps| - 1;
      assert apps[n] in apps && forall a | a in apps[..n] :: a in apps;
      NoneOn(apps[..n], t);
    }
  }

  function Least(a: nat, b: nat): nat {
    if a < b then a else b
  }

  /** Each target's stuns in some order of their starts, and cut into runs. */
  ghost predicate SortedSomehow(apps: seq<Stun>, grace: nat, queues: seq<seq<Stun>>, chains: seq<seq<seq<Stun>>>) {
    && |queues| == |chains| && (forall a | a in apps :: a.target < |chains|)
    && forall t: nat | t < |chains| ::
         Sorted(queues[t]) && multiset(queues[t]) == multiset(On(apps, t)) && Runs(queues[t], grace, chains[t])
  }

  lemma OneTargetMore(chains: seq<seq<seq<Stun>>>, k: nat, p: nat)
    ensures var i, j := Least(k, |chains|), Least(k + 1, |chains|);
            && AllCounts(chains[..j], p) == AllCounts(chains[..i], p)
               + (if k < |chains| then Count(chains[k], p) else 0)
            && AllWasted(chains[..j], p) == AllWasted(chains[..i], p)
               + (if k < |chains| then Wasted(chains[k], p) else 0)
  {
    if k < |chains| {
      OneMoreTarget(chains[..k], chains[k]);
      assert chains[..k + 1] == chains[..k] + [chains[k]];
    }
  }

  lemma {:induction false} SameUpTo(apps: seq<Stun>, grace: nat, n: nat, stable: seq<seq<seq<Stun>>>,
                                    queues: seq<seq<Stun>>, chains: seq<seq<seq<Stun>>>, k: nat, p: nat)
    requires Valid(apps) && Slots(apps, n) && SortedSomehow(apps, grace, queues, chains)
    requires (forall a | a in apps :: a.target < |stable|) && forall t: nat | t < |stable| ::
             Runs(Queue(apps, t), grace, stable[t])
    ensures AllCounts(stable[..Least(k, |stable|)], p) == AllCounts(chains[..Least(k, |chains|)], p)
    ensures AllWasted(stable[..Least(k, |stable|)], p) == AllWasted(chains[..Least(k, |chains|)], p)
  {
    hide Valid, Sorted, Slots, Runs, AllCounts, AllWasted, On, Queue, Count, Wasted;
    if k == 0 {
      assert stable[..0] == [] && chains[..0] == [];
    } else {
      var t := k - 1;
      SameUpTo(apps, grace, n, stable, queues, chains, t, p);
      OneTargetMore(stable, t, p);
      OneTargetMore(chains, t, p);
      if t < |stable| && t < |chains| {
        SameTarget(apps, grace, n, t, queues[t], stable[t], chains[t], p);
      } else if t < |chains| {
        NoTarget(apps, grace, t, queues[t], chains[t], p);
      } else if t < |stable| {
        QueueSpec(apps, t, n);
        NoTarget(apps, grace, t, Queue(apps, t), stable[t], p);
      }
    }
  }

  /** So the detected combos do not depend on how the stuns of each target were sorted. */
  lemma AnySortWillDo(apps: seq<Stun>, grace: nat, n: nat, counts: seq<nat>, wasted: seq<int>,
                      queues: seq<seq<Stun>>, chains: seq<seq<seq<Stun>>>)
    requires Valid(apps) && Slots(apps, n) && Detected(apps, grace, n, counts, wasted)
    requires SortedSomehow(apps, grace, queues, chains)
    ensures |counts| == |wasted| == n
    ensures forall p: nat | p < n :: counts[p] == AllCounts(chains, p) && wasted[p] == AllWasted(chains, p)
  {
    hide Valid, Sorted, Slots, Runs, AllCounts, AllWasted, On, Queue, SortedSomehow;
    var stable: seq<seq<seq<Stun>>> :|
      && (forall a | a in apps :: a.target < |stable|)
      && (forall t: nat | t < |stable| :: Runs(Queue(apps, t), grace, stable[t]))
      && (forall p: nat | p < n :: counts[p] == AllCounts(stable, p) && wasted[p] == AllWasted(stable, p));
    forall p: nat | p < n ensures counts[p] == AllCounts(chains, p) && wasted[p] == AllWasted(chains, p) {
      SameUpTo(apps, grace, n, stable, queues, chains, |stable| + |chains|, p);
      assert stable[..|stable|] == stable && chains[..|chains|] == chains;
    }
  }

  /** A target's stuns are all those on it, as often as they happened. */
  lemma {:induction false} OnIsAll(apps: seq<Stun>, target: nat, a: Stun)
    ensures multiset(On(apps, target))[a] == if a.target == target then multiset(apps)[a] else 0
  {
    if apps != [] {
      var n := |apps| - 1;
      OnIsAll(apps[..n], target, a);
      assert apps == apps[..n] + [apps[n]];
    }
  }

  // ---- which chains count, in plain words

  /** Two stuns of the chain are by different players. */
  ghost predicate TwoPlayers(chain: seq<Stun>) {
    exists i, j :: 0 <= i < j < |chain| && chain[i].attacker != chain[j].attacker
  }

  lemma JointMeans(chain: seq<Stun>)
    ensures Joint(chain) <==> TwoPlayers(chain)
  {
    if TwoPlayers(chain) {
      var i, j :| 0 <= i < j < |chain| && chain[i].attacker != chain[j].attacker;
      assert chain[i] in chain && chain[j] in chain;
      SubsetSize({chain[i].attacker, chain[j].attacker}, Attackers(chain));
    } else if chain != [] {
      forall a | a in Attackers(chain) ensures a in {chain[0].attacker} {
        var x :| x in chain && x.attacker == a;
        var i :| 0 <= i < |chain| && chain[i] == x;
      }
      SubsetSize(Attackers(chain), {chain[0].attacker});
    }
  }

  /** A chain of two players or more in which player p has a stun. */
  ghost predicate ComboOf(chain: seq<Stun>, p: nat) {
    TwoPlayers(chain) && exists a :: a in chain && a.attacker == p
  }

  ghost function CombosOf(chains: seq<seq<Stun>>, p: nat): set<nat> {
    set i | 0 <= i < |chains| && ComboOf(chains[i], p)
  }

  lemma OneCombo(chain: seq<Stun>, p: nat)
    ensures ComboOf(chain, p) <==> Joint(chain) && p in Attackers(chain)
  {
    JointMeans(chain);
  }

  lemma CombosStep(chains: seq<seq<Stun>>, p: nat)
    requires chains != []
    ensures var n := |chains| - 1;
            CombosOf(chains, p) == CombosOf(chains[..n], p) + if ComboOf(chains[n], p) then {n} else {}
    ensures |chains| - 1 !in CombosOf(chains[..|chains| - 1], p)
  {
    hide ComboOf;
    var n := |chains| - 1;
    forall i: nat
      ensures i in CombosOf(chains, p) <==> i in CombosOf(chains[..n], p) || (i == n && ComboOf(chains[n], p))
    {
      if i < n { assert chains[..n][i] == chains[i]; }
    }
  }

  /** A player's count is the number of these chains, and what he is charged with is what they waste together. */
  lemma {:induction false} CountMeans(chains: seq<seq<Stun>>, p: nat)
    ensures Count(chains, p) == |CombosOf(chains, p)|
    ensures Wasted(chains, p) == WasteOf(chains, CombosOf(chains, p))
  {
    hide CombosOf, ComboOf, Joint, Attackers, Total, Cover;
    if chains != [] {
      var n := |chains| - 1;
      CountMeans(chains[..n], p);
      OneCombo(chains[n], p);
      CombosStep(chains, p);
      SameWaste(chains, CombosOf(chains[..n], p), CombosOf(chains, p));
    } else {
      NoCombos(p);
    }
  }

  lemma NoCombos(p: nat)
    ensures CombosOf([], p) == {}
  {
  }

  /** The waste of the chains numbered. */
  ghost function WasteOf(chains: seq<seq<Stun>>, which: set<nat>): int {
    if chains == [] then 0
    else
      var n := |chains| - 1;
      WasteOf(chains[..n], which) + if n in which then Total(chains[n]) - |Cover(chains[n])| else 0
  }

  lemma {:induction false} SameWaste(chains: seq<seq<Stun>>, a: set<nat>, b: set<nat>)
    requires chains != [] && forall i: nat | i < |chains| - 1 :: i in a <==> i in b
    ensures WasteOf(chains[..|chains| - 1], a) == WasteOf(chains[..|chains| - 1], b)
  {
    var front := chains[..|chains| - 1];
    if front != [] { SameWaste(front, a, b); }
  }
}
