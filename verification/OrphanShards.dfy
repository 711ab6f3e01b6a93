/** How the workers of one re-parse attempt divide the plan (internal/reparse/worker.go, Run up to the closing of the
    work channel and shareOrphans). A worker takes its own shard; the replays of shards no machine claimed are taken
    one item claim at a time by whoever comes first. Each step is one store call or one send to the pool, and the
    steps of all workers interleave freely. */
module OrphanShards {

  /** The next step of a worker. */
  datatype Control =
    | Start                       // list the done markers
    | Claiming                    // conditional create of the claim on its own shard
    | Feeding(i: nat)             // plan item i goes to the pool if it is of the own shard and not done
    | Scanning(k: nat)            // has a machine claimed shard k?
    | Taking(k: nat, i: nat)      // claim plan item i if it is of orphan shard k and not done
    | Finished

  datatype Worker = Worker(shard: nat, at: Control, seen: set<int>)

  /** Item id entered the pool of worker who. */
  datatype Entry = Entry(who: nat, id: int)

  /** smooth: no store call failed. */
  datatype State = State(
    done: set<int>, shardClaims: set<nat>, itemClaims: set<int>,
    workers: seq<Worker>, entered: seq<Entry>, smooth: bool)

  /** The attempt's plan: its replays and the shard of each. */
  datatype Plan = Plan(items: seq<int>, shards: nat, shardOf: int -> nat)

  datatype Event =
    | Go(who: nat)                // the worker's next step
    | Fail(who: nat)              // its next store call fails
    | Lose(who: nat)              // its next store call is carried out, but the worker sees a failure
    | Mark(who: nat, id: int)     // it finishes a replay of its pool: a done marker is written

  ghost predicate ValidPlan(p: Plan) {
    && (forall i, j | 0 <= i < j < |p.items| :: p.items[i] != p.items[j])
    && (forall id | id in p.items :: p.shardOf(id) < p.shards)
  }

  /** A machine was started for the shard. */
  predicate Started(s: State, k: nat) {
    exists w :: 0 <= w < |s.workers| && s.workers[w].shard == k
  }

  ghost predicate Init(p: Plan, s: State) {
    && s.shardClaims == {} && s.itemClaims == {} && s.entered == [] && s.smooth
    && (forall w | 0 <= w < |s.workers| ::
       s.workers[w].at == Start && s.workers[w].shard < p.shards && s.workers[w].seen == {})
    && (forall v, w | 0 <= v < w < |s.workers| :: s.workers[v].shard != s.workers[w].shard)
  }

  predicate Mine(p: Plan, w: Worker, k: nat, i: nat)
    requires i < |p.items|
  {
    p.shardOf(p.items[i]) == k && p.items[i] !in w.seen
  }

  /** One step of worker w: the shared state after it, and the worker. */
  function Next(p: Plan, s: State, who: nat, w: Worker): (State, Worker) {
    match w.at
    case Start => (s, w.(seen := s.done, at := Claiming))
    case Claiming => (s.(shardClaims := s.shardClaims + {w.shard}), w.(at := Feeding(0)))
    case Feeding(i) =>
      if i >= |p.items| then (s, w.(at := if p.shards <= 1 then Finished else Scanning(0)))
      else if Mine(p, w, w.shard, i) then (s.(entered := s.entered + [Entry(who, p.items[i])]),
          w.(at := Feeding(i + 1)))
      else (s, w.(at := Feeding(i + 1)))
    case Scanning(k) =>
      if k >= p.shards then (s, w.(at := Finished))
      else if k == w.shard || k in s.shardClaims then (s, w.(at := Scanning(k + 1)))
      else (s, w.(at := Taking(k, 0)))
    case Taking(k, i) =>
      if i >= |p.items| then (s, w.(at := Scanning(k + 1)))
      else if !Mine(p, w, k, i) || p.items[i] in s.itemClaims then (s, w.(at := Taking(k, i + 1)))
      else (s.(itemClaims := s.itemClaims + {p.items[i]}, entered := s.entered + [Entry(who, p.items[i])]),
            w.(at := Taking(k, i + 1)))
    case Finished => (s, w)
  }

  /** The worker's next store call fails: without the listing it does not begin, any other failure is passed over. */
  function Failed(w: Worker): Worker {
    match w.at
    case Start => w
    case Claiming => w.(at := Feeding(0))
    case Scanning(k) => w.(at := Scanning(k + 1))
    case Taking(k, i) => w.(at := Taking(k, i + 1))
    case _ => w
  }

  /** A claim whose answer is lost stands, but the worker does not know; for a look it is a failure like any other. */
  function Lost(p: Plan, s: State, w: Worker): State {
    match w.at
    case Claiming => s.(shardClaims := s.shardClaims + {w.shard})
    case Taking(k, i) => if i < |p.items| && Mine(p, w, k, i) then s.(itemClaims := s.itemClaims + {p.items[i]}) else s
    case _ => s
  }

  function Step(p: Plan, s: State, e: Event): State {
    if e.who >= |s.workers| then s
    else
      match e
      case Go(who) =>
        var (t, w) := Next(p, s, who, s.workers[who]);
        t.(workers := s.workers[who := w])
      case Fail(who) => s.(workers := s.workers[who := Failed(s.workers[who])], smooth := false)
      case Lose(who) => Lost(p, s, s.workers[who]).(workers := s.workers[who := Failed(s.workers[who])],
          smooth := false)
      case Mark(who, id) => if Entry(who, id) in s.entered then s.(done := s.done + {id}) else s
  }

  function Run(p: Plan, s: State, events: seq<Event>): State {
    if events == [] then s else Step(p, Run(p, s, events[..|events| - 1]), events[|events| - 1])
  }

  /** A worker that tests another shard whose machine was started finds its claim there: the grace period before the
      scan is for this. */
  ghost predicate Timely(p: Plan, s: State, e: Event) {
    e.Go? && e.who < |s.workers| && s.workers[e.who].at.Scanning? ==>
      var k := s.workers[e.who].at.k;
      k != s.workers[e.who].shard && Started(s, k) ==> k in s.shardClaims
  }

  ghost predicate TimelyRun(p: Plan, s: State, events: seq<Event>) {
    forall n | 0 <= n < |events| :: Timely(p, Run(p, s, events[..n]), events[n])
  }

  // ---- no item enters two pools

  ghost predicate EntryOk(p: Plan, s: State, e: Entry) {
    && e.who < |s.workers| && e.id in p.items
    && if p.shardOf(e.id) == s.workers[e.who].shard then
         var at := s.workers[e.who].at;
         !at.Start? && !at.Claiming? && (at.Feeding? ==> exists j ::
             0 <= j < at.i && j < |p.items| && p.items[j] == e.id)
       else e.id in s.itemClaims && !Started(s, p.shardOf(e.id))
  }

  ghost predicate Distinct(entered: seq<Entry>) {
    forall i, j | 0 <= i < j < |entered| :: entered[i].id != entered[j].id
  }

  ghost predicate ShardsDistinct(s: State) {
    forall v, w | 0 <= v < w < |s.workers| :: s.workers[v].shard != s.workers[w].shard
  }

  ghost predicate Safe(p: Plan, s: State) {
    && ShardsDistinct(s)
    && (forall k | k in s.shardClaims :: Started(s, k))
    && (forall w | 0 <= w < |s.workers| && s.workers[w].at.Taking? :: !Started(s, s.workers[w].at.k))
    && (forall i | 0 <= i < |s.entered| :: EntryOk(p, s, s.entered[i]))
    && Distinct(s.entered)
  }

  lemma SameStarted(s: State, t: State)
    requires |s.workers| == |t.workers|
    requires forall w | 0 <= w < |s.workers| :: s.workers[w].shard == t.workers[w].shard
    ensures forall k :: Started(s, k) == Started(t, k)
  {
    forall k ensures Started(s, k) == Started(t, k) {
      if Started(s, k) {
        var w :| 0 <= w < |s.workers| && s.workers[w].shard == k;
        assert t.workers[w].shard == k;
      }
    }
  }

  lemma NextShape(p: Plan, s: State, who: nat, w: Worker)
    ensures var (t, v) := Next(p, s, who, w);
            && t.workers == s.workers && t.done == s.done && t.smooth == s.smooth && v.shard == w.shard
            && (t.entered == s.entered || exists id :: t.entered == s.entered + [Entry(who, id)])
            && s.itemClaims <= t.itemClaims
            && (!w.at.Start? ==> v.seen == w.seen)
            && (v.at.Start? ==> w.at.Start?)
            && (v.at.Claiming? ==> w.at.Start?)
            && (t.shardClaims == s.shardClaims || t.shardClaims == s.shardClaims + {w.shard})
  {
    var (t, v) := Next(p, s, who, w);
    match w.at
    case Feeding(i) =>
      if i < |p.items| {
        assert t.entered == s.entered || t.entered == s.entered + [Entry(who, p.items[i])];
      }
    case Taking(k, i) =>
      if i < |p.items| {
        assert t.entered == s.entered || t.entered == s.entered + [Entry(who, p.items[i])];
      }
    case _ =>
  }

  lemma StepShape(p: Plan, s: State, e: Event)
    ensures var t := Step(p, s, e);
            && |t.workers| == |s.workers|
            && (forall w | 0 <= w < |s.workers| ::
               t.workers[w].shard == s.workers[w].shard && (w != e.who ==> t.workers[w] == s.workers[w]))
            && s.done <= t.done && s.itemClaims <= t.itemClaims && s.shardClaims <= t.shardClaims
            && (t.entered == s.entered || (e.Go? && exists id :: t.entered == s.entered + [Entry(e.who, id)]))
            && (t.smooth ==> s.smooth)
  {
    hide Next;
    if e.Go? && e.who < |s.workers| {
      NextShape(p, s, e.who, s.workers[e.who]);
    }
  }

  /** An entry stays accounted for while its worker moves on. */
  lemma EntryStays(p: Plan, s: State, e: Event, x: Entry)
    requires EntryOk(p, s, x)
    ensures EntryOk(p, Step(p, s, e), x)
  {
    StepShape(p, s, e);
    SameStarted(s, Step(p, s, e));
    if e.who == x.who && s.workers[x.who].at.Feeding? && p.shardOf(x.id) == s.workers[x.who].shard {
      var j :| 0 <= j < s.workers[x.who].at.i && j < |p.items| && p.items[j] == x.id;
    }
  }

  /** What a worker is about to feed from its own shard has not entered a pool. */
  lemma OwnIsNew(p: Plan, s: State, who: nat, i: nat, x: Entry)
    requires ValidPlan(p) && Safe(p, s) && EntryOk(p, s, x)
    requires who < |s.workers| && s.workers[who].at == Feeding(i) && i < |p.items|
    requires p.shardOf(p.items[i]) == s.workers[who].shard
    ensures x.id != p.items[i]
  {
    assert Started(s, s.workers[who].shard) by { assert s.workers[who].shard == s.workers[who].shard; }
    if p.shardOf(x.id) == s.workers[who].shard == s.workers[x.who].shard {
      assert x.who == who;
      var j :| 0 <= j < i && j < |p.items| && p.items[j] == x.id;
    }
  }

  /** Nor has an unclaimed item of a shard without a machine. */
  lemma OrphanIsNew(p: Plan, s: State, k: nat, id: int, x: Entry)
    requires EntryOk(p, s, x) && !Started(s, k) && p.shardOf(id) == k && id !in s.itemClaims
    ensures x.id != id
  {
    assert Started(s, s.workers[x.who].shard) by { assert s.workers[x.who].shard == s.workers[x.who].shard; }
  }

  /** The entry a step adds is new, and accounted for. */
  lemma NewEntry(p: Plan, s: State, e: Event, x: Entry)
    requires ValidPlan(p) && Safe(p, s)
    requires Step(p, s, e).entered == s.entered + [x]
    ensures EntryOk(p, Step(p, s, e), x)
    ensures forall i | 0 <= i < |s.entered| :: s.entered[i].id != x.id
  {
    var t := Step(p, s, e);
    assert t.entered[|s.entered|] == x;
    assert |t.entered| != |s.entered|;
    var w := s.workers[e.who];
    StepShape(p, s, e);
    SameStarted(s, t);
    forall n | 0 <= n < |s.entered| ensures s.entered[n].id != x.id {
      assert EntryOk(p, s, s.entered[n]);
      if w.at.Feeding? {
        OwnIsNew(p, s, e.who, w.at.i, s.entered[n]);
      } else {
        OrphanIsNew(p, s, w.at.k, x.id, s.entered[n]);
      }
    }
    if w.at.Feeding? {
      assert p.items[w.at.i] == x.id;
    }
  }

  lemma StepKeepsSafe(p: Plan, s: State, e: Event)
    requires ValidPlan(p) && Safe(p, s) && Timely(p, s, e)
    ensures Safe(p, Step(p, s, e))
  {
    var t := Step(p, s, e);
    StepShape(p, s, e);
    SameStarted(s, t);
    ClaimsAndTaking(p, s, e);
    hide Next, EntryOk, Started;
    forall n | 0 <= n < |t.entered| ensures EntryOk(p, t, t.entered[n]) {
      if n < |s.entered| {
        assert t.entered[n] == s.entered[n];
        EntryStays(p, s, e, s.entered[n]);
      } else {
        NewEntry(p, s, e, t.entered[n]);
      }
    }
    if t.entered != s.entered {
      NewEntry(p, s, e, t.entered[|s.entered|]);
    }
  }

  lemma ClaimsAndTaking(p: Plan, s: State, e: Event)
    requires Safe(p, s) && Timely(p, s, e)
    ensures var t := Step(p, s, e);
            && (forall k | k in t.shardClaims :: Started(t, k))
            && (forall w | 0 <= w < |t.workers| && t.workers[w].at.Taking? :: !Started(t, t.workers[w].at.k))
  {
    var t := Step(p, s, e);
    StepShape(p, s, e);
    SameStarted(s, t);
    if e.Go? && e.who < |s.workers| {
      NextShape(p, s, e.who, s.workers[e.who]);
      assert Started(s, s.workers[e.who].shard) by { assert s.workers[e.who].shard == s.workers[e.who].shard; }
      forall k | k in t.shardClaims ensures Started(t, k) { assert Started(s, k); }
      forall w | 0 <= w < |t.workers| && t.workers[w].at.Taking? ensures !Started(t, t.workers[w].at.k) {
        if w == e.who && s.workers[w].at.Scanning? {
          assert s.workers[w].at.k !in s.shardClaims;
        } else {
          assert !Started(s, s.workers[w].at.k);
        }
      }
    }
  }

  lemma {:induction false} RunKeepsSafe(p: Plan, s: State, events: seq<Event>)
    requires ValidPlan(p) && Init(p, s) && TimelyRun(p, s, events)
    ensures Safe(p, Run(p, s, events)) && |Run(p, s, events).workers| == |s.workers|
  {
    hide Step, Timely;
    if events != [] {
      var front, e := events[..|events| - 1], events[|events| - 1];
      forall n | 0 <= n < |front| ensures Timely(p, Run(p, s, front[..n]), front[n]) {
        assert front[..n] == events[..n];
        assert Timely(p, Run(p, s, events[..n]), events[n]);
      }
      RunKeepsSafe(p, s, front);
      assert Timely(p, Run(p, s, events[..|front|]), events[|front|]);
      StepKeepsSafe(p, Run(p, s, front), e);
      StepShape(p, Run(p, s, front), e);
    }
  }

  /** Whichever machines were refused, no plan item enters two pools, or one pool twice. */
  lemma NoItemTwice(p: Plan, s: State, events: seq<Event>)
    requires ValidPlan(p) && Init(p, s) && TimelyRun(p, s, events)
    ensures Distinct(Run(p, s, events).entered)
  {
    RunKeepsSafe(p, s, events);
  }

  // ---- every open item enters a pool

  ghost predicate Entered(s: State, id: int) {
    exists n :: 0 <= n < |s.entered| && s.entered[n].id == id
  }

  /** Plan item i is of shard k and w has not seen it done. */
  ghost predicate Open(p: Plan, w: Worker, k: nat, i: nat) {
    i < |p.items| && Mine(p, w, k, i)
  }

  /** The items of shard k among the first n that w saw open have entered a pool. */
  ghost predicate Covered(p: Plan, s: State, w: Worker, k: nat, n: nat) {
    forall i | 0 <= i < n && Open(p, w, k, i) :: Entered(s, p.items[i])
  }

  /** What a worker has seen to, as far as it got. */
  ghost predicate WorkerProgress(p: Plan, s: State, w: Worker) {
    match w.at
    case Start => true
    case Claiming => true
    case Feeding(i) => Covered(p, s, w, w.shard, i)
    case Scanning(k) =>
      Covered(p, s, w, w.shard, |p.items|)
      && forall j | 0 <= j < k && !Started(s, j) :: Covered(p, s, w, j, |p.items|)
    case Taking(k, i) =>
      Covered(p, s, w, w.shard, |p.items|) && Covered(p, s, w, k, i)
      && forall j | 0 <= j < k && !Started(s, j) :: Covered(p, s, w, j, |p.items|)
    case Finished =>
      Covered(p, s, w, w.shard, |p.items|)
      && (p.shards > 1 ==> forall j | 0 <= j < p.shards && !Started(s, j) :: Covered(p, s, w, j, |p.items|))
  }

  /** Markers come from the start or from pools, and a worker that listed them knows those of the start. */
  ghost predicate MarkersOk(p: Plan, s: State, done0: set<int>) {
    && (forall id | id in s.done :: id in done0 || Entered(s, id))
    && (forall w | 0 <= w < |s.workers| ::
       s.workers[w].seen <= s.done && (!s.workers[w].at.Start? ==> done0 <= s.workers[w].seen))
    && done0 <= s.done
    && (s.smooth ==> forall id | id in s.itemClaims :: Entered(s, id))
  }

  ghost predicate Progress(p: Plan, s: State) {
    s.smooth ==> forall w | 0 <= w < |s.workers| :: WorkerProgress(p, s, s.workers[w])
  }

  lemma EnteredStays(p: Plan, s: State, e: Event)
    ensures forall id | Entered(s, id) :: Entered(Step(p, s, e), id)
  {
    hide Next;
    StepShape(p, s, e);
    var t := Step(p, s, e);
    forall id | Entered(s, id) ensures Entered(t, id) {
      var n :| 0 <= n < |s.entered| && s.entered[n].id == id;
      assert t.entered[n] == s.entered[n];
    }
  }

  lemma CoveredStays(p: Plan, s: State, t: State, w: Worker, v: Worker, k: nat, n: nat)
    requires Covered(p, s, w, k, n) && w.seen == v.seen
    requires forall id | Entered(s, id) :: Entered(t, id)
    ensures Covered(p, t, v, k, n)
  {
    forall i | 0 <= i < n && Open(p, v, k, i) ensures Entered(t, p.items[i]) {
      assert Open(p, w, k, i);
    }
  }

  /** A worker that does not move keeps its progress. */
  lemma ProgressStays(p: Plan, s: State, t: State, w: Worker)
    requires WorkerProgress(p, s, w)
    requires forall id | Entered(s, id) :: Entered(t, id)
    requires forall k :: Started(s, k) == Started(t, k)
    ensures WorkerProgress(p, t, w)
  {
    hide Entered, Started, Covered;
    forall k: nat, n: nat | Covered(p, s, w, k, n) ensures Covered(p, t, w, k, n) {
      CoveredStays(p, s, t, w, w, k, n);
    }
  }

  /** The next step of a worker covers one more item or one more shard. */
  lemma NextProgress(p: Plan, s: State, who: nat, t: State)
    requires who < |s.workers| && WorkerProgress(p, s, s.workers[who])
    requires t == Step(p, s, Go(who))
    requires forall k | k in s.shardClaims :: Started(s, k)
    requires forall id | id in s.itemClaims :: Entered(s, id)
    requires forall id | Entered(s, id) :: Entered(t, id)
    requires forall k :: Started(s, k) == Started(t, k)
    ensures WorkerProgress(p, t, t.workers[who])
  {
    hide Entered, Started, Covered;
    var w, v := s.workers[who], t.workers[who];
    NextShape(p, s, who, w);
    if !w.at.Start? {
      forall k: nat, n: nat | Covered(p, s, w, k, n) ensures Covered(p, t, v, k, n) {
        CoveredStays(p, s, t, w, v, k, n);
      }
    }
    match w.at {
      case Claiming => NoneCovered(p, t, v, v.shard);
      case Feeding(i) =>
        if i < |p.items| { OneMore(p, s, who, t, w.shard, i); }
        else { AllCovered(p, t, v, v.shard, i); }
      case Scanning(k) =>
        NoneCovered(p, t, v, k);
        assert Started(s, w.shard) by { OwnStarted(s, who); }
      case Taking(k, i) =>
        if i < |p.items| { OneMore(p, s, who, t, k, i); }
        else { AllCovered(p, t, v, k, i); }
      case _ =>
    }
  }

  lemma OwnStarted(s: State, who: nat)
    requires who < |s.workers|
    ensures Started(s, s.workers[who].shard)
  {
    assert s.workers[who].shard == s.workers[who].shard;
  }

  lemma NoneCovered(p: Plan, s: State, w: Worker, k: nat)
    ensures Covered(p, s, w, k, 0)
  {
  }

  lemma AllCovered(p: Plan, s: State, w: Worker, k: nat, n: nat)
    requires Covered(p, s, w, k, n) && n >= |p.items|
    ensures Covered(p, s, w, k, |p.items|)
  {
  }

  lemma OneMore(p: Plan, s: State, who: nat, t: State, k: nat, i: nat)
    requires who < |s.workers| && i < |p.items| && t == Step(p, s, Go(who)) && who < |t.workers|
    requires s.workers[who].at == Taking(k, i) || (s.workers[who].at == Feeding(i) && k == s.workers[who].shard)
    requires Covered(p, t, t.workers[who], k, i)
    requires forall id | id in s.itemClaims :: Entered(t, id)
    ensures Covered(p, t, t.workers[who], k, i + 1)
  {
    if Open(p, t.workers[who], k, i) {
      if t.entered != s.entered {
        assert t.entered[|s.entered|].id == p.items[i];
      }
      assert Entered(t, p.items[i]);
    }
  }

  lemma StepKeepsProgress(p: Plan, s: State, e: Event)
    requires Progress(p, s) && (forall k | k in s.shardClaims :: Started(s, k))
    requires s.smooth ==> forall id | id in s.itemClaims :: Entered(s, id)
    ensures Progress(p, Step(p, s, e))
  {
    hide WorkerProgress, Next, Entered, Started;
    var t := Step(p, s, e);
    StepShape(p, s, e);
    SameStarted(s, t);
    EnteredStays(p, s, e);
    if t.smooth {
      forall w | 0 <= w < |t.workers| ensures WorkerProgress(p, t, t.workers[w]) {
        if e.Go? && w == e.who { NextProgress(p, s, w, t); }
        else { ProgressStays(p, s, t, s.workers[w]); }
      }
    }
  }

  lemma StepKeepsMarkers(p: Plan, s: State, e: Event, done0: set<int>)
    requires MarkersOk(p, s, done0)
    ensures MarkersOk(p, Step(p, s, e), done0)
  {
    hide Entered;
    var t := Step(p, s, e);
    EnteredStays(p, s, e);
    NewMarker(p, s, e);
    if e.Go? && e.who < |s.workers| { hide Next; NextShape(p, s, e.who, s.workers[e.who]); StartListing(p, s, e.who); }
  }

  lemma StartListing(p: Plan, s: State, who: nat)
    requires who < |s.workers|
    ensures var (t, w) := Next(p, s, who, s.workers[who]);
            && (s.workers[who].at.Start? ==> w.seen == s.done)
            && t.done == s.done
  {
  }

  lemma NewMarker(p: Plan, s: State, e: Event)
    ensures var t := Step(p, s, e);
            && (forall id | id in t.done && id !in s.done :: Entered(t, id))
            && (t.smooth ==> forall id | id in t.itemClaims && id !in s.itemClaims :: Entered(t, id))
  {
    var t := Step(p, s, e);
    if e.Go? && e.who < |s.workers| && t.entered != s.entered {
      assert Entered(t, t.entered[|s.entered|].id);
    }
    if e.Mark? && e.who < |s.workers| && Entry(e.who, e.id) in s.entered {
      var n :| 0 <= n < |s.entered| && s.entered[n] == Entry(e.who, e.id);
      assert t.entered[n].id == e.id;
    }
  }

  lemma {:induction false} RunKeepsProgress(p: Plan, s: State, events: seq<Event>)
    requires ValidPlan(p) && Init(p, s) && TimelyRun(p, s, events)
    ensures Progress(p, Run(p, s, events)) && MarkersOk(p, Run(p, s, events), s.done)
  {
    hide Step, Timely;
    if events != [] {
      var front, e := events[..|events| - 1], events[|events| - 1];
      forall n | 0 <= n < |front| ensures Timely(p, Run(p, s, front[..n]), front[n]) {
        assert front[..n] == events[..n];
        assert Timely(p, Run(p, s, events[..n]), events[n]);
      }
      RunKeepsProgress(p, s, front);
      RunKeepsSafe(p, s, front);
      StepKeepsProgress(p, Run(p, s, front), e);
      StepKeepsMarkers(p, Run(p, s, front), e, s.done);
    }
  }

  /** After scans without an error, an item that some worker saw open has entered exactly one pool: its own worker's
      if its shard has a machine, else that of the worker whose item claim came first. */
  lemma EveryOpenItemEntersOnce(p: Plan, s: State, events: seq<Event>, who: nat, i: nat)
    requires ValidPlan(p) && Init(p, s) && TimelyRun(p, s, events)
    requires var t := Run(p, s, events);
             && t.smooth && who < |t.workers| && i < |p.items| && p.items[i] !in t.workers[who].seen
             && forall w | 0 <= w < |t.workers| :: t.workers[w].at == Finished
    ensures var t := Run(p, s, events);
            exists n :: 0 <= n < |t.entered| && t.entered[n].id == p.items[i]
                        && forall m | 0 <= m < |t.entered| && t.entered[m].id == p.items[i] :: m == n
  {
    hide Step, Run, TimelyRun, EntryOk;
    var t := Run(p, s, events);
    RunKeepsProgress(p, s, events);
    RunKeepsSafe(p, s, events);
    SameShards(p, s, events);
    var id := p.items[i];
    var k := p.shardOf(id);
    assert id in p.items;
    if Started(t, k) {
      var o :| 0 <= o < |t.workers| && t.workers[o].shard == k;
      assert WorkerProgress(p, t, t.workers[o]);
      assert id in t.workers[o].seen || Open(p, t.workers[o], k, i);
    } else {
      assert WorkerProgress(p, t, t.workers[who]);
      assert Open(p, t.workers[who], k, i);
      assert p.shards > 1 by { OwnStarted(t, who); }
    }
    assert Entered(t, id);
  }

  lemma {:induction false} SameShards(p: Plan, s: State, events: seq<Event>)
    ensures var t := Run(p, s, events);
            |t.workers| == |s.workers| && forall w | 0 <= w < |s.workers| :: t.workers[w].shard == s.workers[w].shard
  {
    hide Step;
    if events != [] {
      SameShards(p, s, events[..|events| - 1]);
      StepShape(p, Run(p, s, events[..|events| - 1]), events[|events| - 1]);
    }
  }

  // ---- failures: what a worker can miss

  /** Worker who's call at this place failed; lost: it was carried out all the same. */
  datatype Mishap = Mishap(who: nat, at: Control, lost: bool)

  ghost function Mishaps(p: Plan, s: State, events: seq<Event>): set<Mishap> {
    if events == [] then {}
    else
      var front, e := events[..|events| - 1], events[|events| - 1];
      Mishaps(p, s, front) + OneMishap(Run(p, s, front), e)
  }

  ghost function OneMishap(s: State, e: Event): set<Mishap> {
    if (e.Fail? || e.Lose?) && e.who < |s.workers| then {Mishap(e.who, s.workers[e.who].at, e.Lose?)} else {}
  }

  ghost predicate Slipped(log: set<Mishap>, who: nat, at: Control) {
    Mishap(who, at, true) in log || Mishap(who, at, false) in log
  }

  /** Someone's claim on item id was carried out, but the answer was lost. */
  ghost predicate ClaimedUnheard(p: Plan, s: State, log: set<Mishap>, id: int) {
    exists m :: m in log && UnheardClaim(p, s, m, id)
  }

  ghost predicate UnheardClaim(p: Plan, s: State, m: Mishap, id: int) {
    m.lost && m.at.Taking? && m.who < |s.workers| && Open(p, s.workers[m.who], m.at.k, m.at.i) && p.items[m.at.i] == id
  }

  /** What can keep an open item of another shard from a worker that went through it: it is in a pool, the shard has
      its machine, the look at the shard or the claim of the item failed, or a claim of it was carried out unheard. */
  ghost predicate SeenTo(p: Plan, s: State, log: set<Mishap>, who: nat, k: nat, i: nat)
    requires who < |s.workers|
  {
    Open(p, s.workers[who], k, i) ==>
      || Entered(s, p.items[i]) || k in s.shardClaims
      || Slipped(log, who, Scanning(k)) || Slipped(log, who, Taking(k, i))
      || ClaimedUnheard(p, s, log, p.items[i])
  }

  ghost predicate Tried(p: Plan, s: State, log: set<Mishap>, who: nat, k: nat, n: nat)
    requires who < |s.workers|
  {
    forall i | 0 <= i < n :: SeenTo(p, s, log, who, k, i)
  }

  ghost predicate ShardsTried(p: Plan, s: State, log: set<Mishap>, who: nat, n: nat)
    requires who < |s.workers|
  {
    forall k | 0 <= k < n && k != s.workers[who].shard :: Tried(p, s, log, who, k, |p.items|)
  }

  ghost predicate WorkerDid(p: Plan, s: State, log: set<Mishap>, who: nat)
    requires who < |s.workers|
  {
    var w := s.workers[who];
    match w.at
    case Start => true
    case Claiming => true
    case Feeding(i) => Covered(p, s, w, w.shard, i)
    case Scanning(k) => Covered(p, s, w, w.shard, |p.items|) && ShardsTried(p, s, log, who, k)
    case Taking(k, i) =>
      && Covered(p, s, w, w.shard, |p.items|) && ShardsTried(p, s, log, who, k) && Tried(p, s, log, who, k, i)
    case Finished => Covered(p, s, w, w.shard, |p.items|) && (p.shards > 1 ==> ShardsTried(p, s, log, who, p.shards))
  }

  /** The worker has put its claim on its own shard, or knows nothing of it. */
  ghost predicate Claimed(s: State, log: set<Mishap>, who: nat)
    requires who < |s.workers|
  {
    !s.workers[who].at.Start? && !s.workers[who].at.Claiming? && Mishap(who, Claiming, false) !in log
  }

  ghost predicate HasClaimer(s: State, log: set<Mishap>, k: nat) {
    exists w :: 0 <= w < |s.workers| && s.workers[w].shard == k && Claimed(s, log, w)
  }

  /** The claims on record are those carried out, heard of or not. */
  ghost predicate ClaimsMean(p: Plan, s: State, log: set<Mishap>) {
    && (forall id | id in s.itemClaims :: Entered(s, id) || ClaimedUnheard(p, s, log, id))
    && (forall id | ClaimedUnheard(p, s, log, id) :: id in s.itemClaims)
    && (forall k | k in s.shardClaims :: HasClaimer(s, log, k))
    && (forall w | 0 <= w < |s.workers| && Claimed(s, log, w) :: s.workers[w].shard in s.shardClaims)
    && (forall m | m in log && m.who < |s.workers| && (m.at.Claiming? || m.at.Taking?) ::
          !s.workers[m.who].at.Start? && !s.workers[m.who].at.Claiming?)
  }

  lemma UnheardStays(p: Plan, s: State, t: State, log: set<Mishap>, more: set<Mishap>, id: int)
    requires ClaimedUnheard(p, s, log, id) && log <= more && |t.workers| == |s.workers|
    requires forall m | m in log && m.at.Taking? && m.who < |s.workers| ::
             s.workers[m.who].seen == t.workers[m.who].seen
    ensures ClaimedUnheard(p, t, more, id)
  {
    var m :| m in log && UnheardClaim(p, s, m, id);
    assert UnheardClaim(p, t, m, id);
  }

  /** What a step leaves of the log, the markers seen and the pools. */
  ghost predicate Follows(p: Plan, s: State, t: State, log: set<Mishap>, more: set<Mishap>) {
    && |t.workers| == |s.workers| && log <= more && s.shardClaims <= t.shardClaims
    && (forall id | Entered(s, id) :: Entered(t, id))
    && (forall id | ClaimedUnheard(p, s, log, id) :: ClaimedUnheard(p, t, more, id))
    && (forall w | 0 <= w < |s.workers| :: t.workers[w].shard == s.workers[w].shard
          && (!s.workers[w].at.Start? ==> t.workers[w].seen == s.workers[w].seen))
  }

  lemma StepFollows(p: Plan, s: State, e: Event, log: set<Mishap>)
    requires ClaimsMean(p, s, log)
    ensures Follows(p, s, Step(p, s, e), log, log + OneMishap(s, e))
  {
    hide Next, Entered, ClaimedUnheard;
    var t := Step(p, s, e);
    StepShape(p, s, e);
    EnteredStays(p, s, e);
    if e.Go? && e.who < |s.workers| { NextShape(p, s, e.who, s.workers[e.who]); }
    forall id | ClaimedUnheard(p, s, log, id) ensures ClaimedUnheard(p, t, log + OneMishap(s, e), id) {
      UnheardStays(p, s, t, log, log + OneMishap(s, e), id);
    }
  }

  lemma TriedStays(p: Plan, s: State, t: State, log: set<Mishap>, more: set<Mishap>, who: nat, k: nat, n: nat)
    requires Follows(p, s, t, log, more) && who < |s.workers| && !s.workers[who].at.Start?
    requires Tried(p, s, log, who, k, n)
    ensures Tried(p, t, more, who, k, n)
  {
    hide Entered, ClaimedUnheard;
    forall i | 0 <= i < n ensures SeenTo(p, t, more, who, k, i) { assert SeenTo(p, s, log, who, k, i); }
  }

  lemma ShardsStay(p: Plan, s: State, t: State, log: set<Mishap>, more: set<Mishap>, who: nat, n: nat)
    requires Follows(p, s, t, log, more) && who < |s.workers| && !s.workers[who].at.Start?
    requires ShardsTried(p, s, log, who, n)
    ensures ShardsTried(p, t, more, who, n)
  {
    hide Tried, Entered, ClaimedUnheard;
    forall k | 0 <= k < n && k != t.workers[who].shard ensures Tried(p, t, more, who, k, |p.items|) {
      TriedStays(p, s, t, log, more, who, k, |p.items|);
    }
  }

  /** A worker that does not move has done what it had. */
  lemma DidStays(p: Plan, s: State, t: State, log: set<Mishap>, more: set<Mishap>, who: nat)
    requires Follows(p, s, t, log, more) && who < |s.workers| && t.workers[who] == s.workers[who]
    requires WorkerDid(p, s, log, who)
    ensures WorkerDid(p, t, more, who)
  {
    hide Tried, ShardsTried, Covered, Entered, ClaimedUnheard;
    var w := s.workers[who];
    forall k: nat, n: nat | Covered(p, s, w, k, n) ensures Covered(p, t, w, k, n) { CoveredStays(p, s, t, w, w, k, n); }
    if !w.at.Start? {
      forall n: nat | ShardsTried(p, s, log, who, n) ensures ShardsTried(p, t, more, who, n) {
        ShardsStay(p, s, t, log, more, who, n);
      }
      forall k: nat, n: nat | Tried(p, s, log, who, k, n) ensures Tried(p, t, more, who, k, n) {
        TriedStays(p, s, t, log, more, who, k, n);
      }
    }
  }

  lemma OneTried(p: Plan, s: State, log: set<Mishap>, who: nat, k: nat, i: nat)
    requires who < |s.workers| && Tried(p, s, log, who, k, i) && SeenTo(p, s, log, who, k, i)
    ensures Tried(p, s, log, who, k, i + 1)
  {
    hide SeenTo;
  }

  lemma AllTried(p: Plan, s: State, log: set<Mishap>, who: nat, k: nat, i: nat)
    requires who < |s.workers| && ShardsTried(p, s, log, who, k)
    requires k == s.workers[who].shard || (Tried(p, s, log, who, k, i) && i >= |p.items|)
    ensures ShardsTried(p, s, log, who, k + 1)
  {
    hide SeenTo;
  }

  lemma NoneTried(p: Plan, s: State, log: set<Mishap>, who: nat, k: nat)
    requires who < |s.workers|
    ensures Tried(p, s, log, who, k, 0) && ShardsTried(p, s, log, who, 0)
  {
  }

  lemma FeedsOne(p: Plan, s: State, who: nat, i: nat)
    requires who < |s.workers| && s.workers[who].at == Feeding(i) && i < |p.items|
    ensures var t := Step(p, s, Go(who)); var w := s.workers[who];
            && who < |t.workers| && t.workers[who] == w.(at := Feeding(i + 1))
            && (Open(p, w, w.shard, i) ==> Entered(t, p.items[i]))
  {
    var t := Step(p, s, Go(who));
    if Open(p, s.workers[who], s.workers[who].shard, i) { assert t.entered[|s.entered|].id == p.items[i]; }
  }

  lemma OneCovered(p: Plan, s: State, w: Worker, k: nat, i: nat)
    requires Covered(p, s, w, k, i) && (Open(p, w, k, i) ==> Entered(s, p.items[i]))
    ensures Covered(p, s, w, k, i + 1)
  {
    hide Entered;
  }

  lemma TakesOne(p: Plan, s: State, who: nat, k: nat, i: nat)
    requires who < |s.workers| && s.workers[who].at == Taking(k, i) && i < |p.items|
    ensures var t := Step(p, s, Go(who)); var w := s.workers[who];
            && who < |t.workers| && t.workers[who] == w.(at := Taking(k, i + 1))
            && (Open(p, w, k, i) ==> Entered(t, p.items[i]) || p.items[i] in s.itemClaims)
  {
    var t := Step(p, s, Go(who));
    if Open(p, s.workers[who], k, i) && p.items[i] !in s.itemClaims {
      assert t.entered[|s.entered|].id == p.items[i];
    }
  }

  lemma FailsAt(p: Plan, s: State, e: Event)
    requires (e.Fail? || e.Lose?) && e.who < |s.workers|
    ensures var t := Step(p, s, e);
            && |t.workers| == |s.workers| && t.workers[e.who] == Failed(s.workers[e.who])
            && Mishap(e.who, s.workers[e.who].at, e.Lose?) in OneMishap(s, e)
  {
  }

  lemma KnownClaim(p: Plan, s: State, log: set<Mishap>, id: int)
    requires ClaimsMean(p, s, log) && id in s.itemClaims
    ensures Entered(s, id) || ClaimedUnheard(p, s, log, id)
  {
  }

  /** Item i of the orphan shard is seen to once the worker has gone past it. */
  lemma ItemTried(p: Plan, s: State, e: Event, log: set<Mishap>, k: nat, i: nat)
    requires ClaimsMean(p, s, log) && e.who < |s.workers| && s.workers[e.who].at == Taking(k, i)
    requires e.Fail? || e.Lose? || (e.Go? && i < |p.items|)
    ensures var t := Step(p, s, e);
            && e.who < |t.workers| && t.workers[e.who] == s.workers[e.who].(at := Taking(k, i + 1))
            && SeenTo(p, t, log + OneMishap(s, e), e.who, k, i)
  {
    hide Entered, ClaimedUnheard, ClaimsMean, Step, OneMishap;
    StepFollows(p, s, e, log);
    if e.Go? {
      TakesOne(p, s, e.who, k, i);
      if p.items[i] in s.itemClaims { KnownClaim(p, s, log, p.items[i]); }
    } else {
      FailsAt(p, s, e);
    }
  }

  /** A failed look at a shard, a claim found there, or the worker's own shard. */
  lemma ShardPassed(p: Plan, s: State, e: Event, log: set<Mishap>, k: nat)
    requires ClaimsMean(p, s, log) && e.who < |s.workers| && s.workers[e.who].at == Scanning(k)
    requires e.Fail? || e.Lose? || (e.Go? && k in s.shardClaims)
    ensures var t := Step(p, s, e); e.who < |t.workers| && Tried(p, t, log + OneMishap(s, e), e.who, k, |p.items|)
  {
    hide Entered, ClaimedUnheard, ClaimsMean, Step, OneMishap;
    StepFollows(p, s, e, log);
    if !e.Go? { FailsAt(p, s, e); }
  }

  /** Where a worker that scans goes next. */
  lemma ScanStep(p: Plan, s: State, e: Event, k: nat)
    requires e.who < |s.workers| && s.workers[e.who].at == Scanning(k) && !e.Mark?
    ensures var t := Step(p, s, e); var w := s.workers[e.who];
            && e.who < |t.workers|
            && t.workers[e.who] == w.(at :=
                 if e.Go? && k >= p.shards then Finished
                 else if e.Go? && k != w.shard && k !in s.shardClaims then Taking(k, 0) else Scanning(k + 1))
  {
  }

  /** What the worker had done before its step stays done. */
  lemma MoverKeeps(p: Plan, s: State, e: Event, log: set<Mishap>)
    requires ClaimsMean(p, s, log) && e.who < |s.workers| && !s.workers[e.who].at.Start?
    ensures var t, who := Step(p, s, e), e.who; var more := log + OneMishap(s, e);
            && who < |t.workers| && t.workers[who].seen == s.workers[who].seen
            && t.workers[who].shard == s.workers[who].shard
            && (forall k: nat, n: nat | Covered(p, s, s.workers[who], k, n) :: Covered(p, t, t.workers[who], k, n))
            && (forall n: nat | ShardsTried(p, s, log, who, n) :: ShardsTried(p, t, more, who, n))
            && (forall k: nat, n: nat | Tried(p, s, log, who, k, n) :: Tried(p, t, more, who, k, n))
  {
    hide Entered, ClaimedUnheard, ClaimsMean, Step, OneMishap, Covered, Tried, ShardsTried;
    StepFollows(p, s, e, log);
    var t, who, more := Step(p, s, e), e.who, log + OneMishap(s, e);
    forall k: nat, n: nat | Covered(p, s, s.workers[who], k, n) ensures Covered(p, t, t.workers[who], k, n) {
      CoveredStays(p, s, t, s.workers[who], t.workers[who], k, n);
    }
    forall n: nat | ShardsTried(p, s, log, who, n) ensures ShardsTried(p, t, more, who, n) {
      ShardsStay(p, s, t, log, more, who, n);
    }
    forall k: nat, n: nat | Tried(p, s, log, who, k, n) ensures Tried(p, t, more, who, k, n) {
      TriedStays(p, s, t, log, more, who, k, n);
    }
  }

  /** The worker's own next step, or its failure. */
  lemma MoverDid(p: Plan, s: State, e: Event, log: set<Mishap>)
    requires ClaimsMean(p, s, log) && e.who < |s.workers| && !e.Mark? && WorkerDid(p, s, log, e.who)
    ensures e.who < |Step(p, s, e).workers| && WorkerDid(p, Step(p, s, e), log + OneMishap(s, e), e.who)
  {
    hide Entered, ClaimedUnheard, Covered, Tried, ShardsTried, SeenTo, ClaimsMean, Slipped, OneMishap, Step;
    var who, t, more := e.who, Step(p, s, e), log + OneMishap(s, e);
    StepShape(p, s, e);
    var w := s.workers[who];
    if w.at.Start? {
      Begins(p, s, e);
    } else {
      MoverKeeps(p, s, e, log);
      match w.at {
        case Claiming =>
          Claims(p, s, e);
          NoneCovered(p, t, t.workers[who], w.shard);
        case Feeding(i) => MoverFed(p, s, e, log, i);
        case Scanning(k) =>
          ScanStep(p, s, e, k);
          NoneTried(p, t, more, who, k);
          if !e.Go? || k in s.shardClaims {
            ShardPassed(p, s, e, log, k);
            AllTried(p, t, more, who, k, |p.items|);
          }
          if k == w.shard { AllTried(p, t, more, who, k, 0); }
          if e.Go? && k >= p.shards { FewerTried(p, t, more, who, k); }
        case Taking(k, i) =>
          if e.Go? && i >= |p.items| {
            AllTried(p, t, more, who, k, i);
            LeavesShard(p, s, who, k, i);
          } else {
            ItemTried(p, s, e, log, k, i);
            OneTried(p, t, more, who, k, i);
          }
        case Finished => StaysFinished(p, s, e);
      }
    }
  }

  lemma FewerTried(p: Plan, s: State, log: set<Mishap>, who: nat, k: nat)
    requires who < |s.workers| && ShardsTried(p, s, log, who, k) && k >= p.shards
    ensures ShardsTried(p, s, log, who, p.shards)
  {
    hide Tried;
  }

  lemma LeavesShard(p: Plan, s: State, who: nat, k: nat, i: nat)
    requires who < |s.workers| && s.workers[who].at == Taking(k, i) && i >= |p.items|
    ensures var t := Step(p, s, Go(who)); who < |t.workers| && t.workers[who] == s.workers[who].(at := Scanning(k + 1))
  {
  }

  lemma StaysFinished(p: Plan, s: State, e: Event)
    requires e.who < |s.workers| && s.workers[e.who].at == Finished
    ensures e.who < |Step(p, s, e).workers| && Step(p, s, e).workers[e.who] == s.workers[e.who]
  {
  }

  lemma Begins(p: Plan, s: State, e: Event)
    requires e.who < |s.workers| && s.workers[e.who].at == Start
    ensures var t := Step(p, s, e); e.who < |t.workers| && (t.workers[e.who].at.Start? || t.workers[e.who].at.Claiming?)
  {
  }

  lemma Claims(p: Plan, s: State, e: Event)
    requires e.who < |s.workers| && s.workers[e.who].at == Claiming && !e.Mark?
    ensures var t := Step(p, s, e);
            && e.who < |t.workers| && t.workers[e.who] == s.workers[e.who].(at := Feeding(0))
            && t.shardClaims == s.shardClaims + (if e.Fail? then {} else {s.workers[e.who].shard})
  {
  }

  lemma MoverFed(p: Plan, s: State, e: Event, log: set<Mishap>, i: nat)
    requires ClaimsMean(p, s, log) && e.who < |s.workers| && !e.Mark? && s.workers[e.who].at == Feeding(i)
    requires WorkerDid(p, s, log, e.who)
    ensures e.who < |Step(p, s, e).workers| && WorkerDid(p, Step(p, s, e), log + OneMishap(s, e), e.who)
  {
    hide Entered, ClaimedUnheard, Covered, Tried, ShardsTried, ClaimsMean, OneMishap, Step;
    var who, t, more := e.who, Step(p, s, e), log + OneMishap(s, e);
    MoverKeeps(p, s, e, log);
    NoneTried(p, t, more, who, 0);
    var w := s.workers[who];
    if e.Go? && i < |p.items| {
      FeedsOne(p, s, who, i);
      OneCovered(p, t, t.workers[who], w.shard, i) by { SameOpen(p, w, t.workers[who], i); }
    } else {
      FeedsNone(p, s, e, i);
      if e.Go? {
        AllCovered(p, t, t.workers[who], w.shard, i);
        if p.shards <= 1 { hide WorkerDid; }
      }
    }
  }

  lemma SameOpen(p: Plan, w: Worker, v: Worker, i: nat)
    requires w.seen == v.seen && w.shard == v.shard
    ensures Open(p, w, w.shard, i) == Open(p, v, w.shard, i)
  {
  }

  lemma FeedsNone(p: Plan, s: State, e: Event, i: nat)
    requires e.who < |s.workers| && s.workers[e.who].at == Feeding(i) && !e.Mark? && (e.Go? ==> i >= |p.items|)
    ensures var t := Step(p, s, e); var w := s.workers[e.who];
            && e.who < |t.workers|
            && t.workers[e.who] == w.(at := if !e.Go? then w.at else if p.shards <= 1 then Finished else Scanning(0))
  {
  }

  /** The claims after a step. */
  lemma ClaimShape(p: Plan, s: State, e: Event)
    requires e.who < |s.workers| && !e.Mark?
    ensures var t, w := Step(p, s, e), s.workers[e.who];
            && t.shardClaims == s.shardClaims + (if w.at.Claiming? && !e.Fail? then {w.shard} else {})
            && (forall id | id in t.itemClaims && id !in s.itemClaims ::
                  w.at.Taking? && Open(p, w, w.at.k, w.at.i) && p.items[w.at.i] == id && (e.Lose? || Entered(t, id)))
            && (e.Lose? && w.at.Taking? && Open(p, w, w.at.k, w.at.i) ==> p.items[w.at.i] in t.itemClaims)
  {
    var t := Step(p, s, e);
    if e.Go? && t.entered != s.entered { assert Entered(t, t.entered[|s.entered|].id); }
  }

  lemma ControlShape(p: Plan, s: State, e: Event)
    requires e.who < |s.workers| && !e.Mark?
    ensures var t := Step(p, s, e); var w := s.workers[e.who];
            && |t.workers| == |s.workers| && var v := t.workers[e.who];
            && (v.at.Start? || v.at.Claiming? ==> w.at.Start?)
            && (w.at.Start? ==> v.at.Start? || v.at.Claiming?)
            && (!w.at.Start? ==> v.seen == w.seen) && v.shard == w.shard
            && ((e.Fail? || e.Lose?) && (w.at.Claiming? || w.at.Taking?) ==> !v.at.Start? && !v.at.Claiming?)
  {
  }

  /** An unheard claim of the state after the step: one of before, or the one just lost. */
  lemma UnheardBefore(p: Plan, s: State, e: Event, log: set<Mishap>, id: int)
    requires ClaimsMean(p, s, log) && e.who < |s.workers| && !e.Mark?
    requires ClaimedUnheard(p, Step(p, s, e), log + OneMishap(s, e), id)
    ensures id in Step(p, s, e).itemClaims
  {
    hide Step, ClaimedUnheard;
    var t := Step(p, s, e);
    ControlShape(p, s, e);
    StepShape(p, s, e);
    ClaimShape(p, s, e);
    var m := OneUnheard(p, t, log + OneMishap(s, e), id);
    if m in log {
      assert UnheardClaim(p, s, m, id);
      IsUnheard(p, s, log, m, id);
    } else {
      assert m == Mishap(e.who, s.workers[e.who].at, true);
    }
  }

  lemma OneUnheard(p: Plan, s: State, log: set<Mishap>, id: int) returns (m: Mishap)
    requires ClaimedUnheard(p, s, log, id)
    ensures m in log && UnheardClaim(p, s, m, id)
  {
    m :| m in log && UnheardClaim(p, s, m, id);
  }

  lemma IsUnheard(p: Plan, s: State, log: set<Mishap>, m: Mishap, id: int)
    requires m in log && UnheardClaim(p, s, m, id)
    ensures ClaimedUnheard(p, s, log, id)
  {
  }

  lemma ItemClaimsMean(p: Plan, s: State, e: Event, log: set<Mishap>, id: int)
    requires ClaimsMean(p, s, log) && e.who < |s.workers| && !e.Mark? && id in Step(p, s, e).itemClaims
    ensures var t := Step(p, s, e); Entered(t, id) || ClaimedUnheard(p, t, log + OneMishap(s, e), id)
  {
    var t, more := Step(p, s, e), log + OneMishap(s, e);
    StepFollows(p, s, e, log);
    ClaimShape(p, s, e);
    ControlShape(p, s, e);
    hide Step, Entered, ClaimedUnheard;
    if id in s.itemClaims {
      KnownClaim(p, s, log, id);
    } else if e.Lose? {
      var m := Mishap(e.who, s.workers[e.who].at, true);
      assert UnheardClaim(p, t, m, id);
      IsUnheard(p, t, more, m, id);
    }
  }

  lemma ShardClaimsMean(p: Plan, s: State, e: Event, log: set<Mishap>)
    requires ClaimsMean(p, s, log) && e.who < |s.workers| && !e.Mark?
    ensures var t, more := Step(p, s, e), log + OneMishap(s, e);
            && (forall k | k in t.shardClaims :: HasClaimer(t, more, k))
            && (forall w | 0 <= w < |t.workers| && Claimed(t, more, w) :: t.workers[w].shard in t.shardClaims)
  {
    var t, more := Step(p, s, e), log + OneMishap(s, e);
    ControlShape(p, s, e);
    StepShape(p, s, e);
    ClaimShape(p, s, e);
    hide Step, Entered, ClaimedUnheard, UnheardClaim;
    forall w | 0 <= w < |t.workers| && Claimed(t, more, w) ensures t.workers[w].shard in t.shardClaims {
      if w != e.who || !s.workers[w].at.Claiming? { assert Claimed(s, log, w); }
    }
    forall k | k in t.shardClaims ensures HasClaimer(t, more, k) {
      if k in s.shardClaims {
        assert HasClaimer(s, log, k);
        var w :| 0 <= w < |s.workers| && s.workers[w].shard == k && Claimed(s, log, w);
        assert t.workers[w].shard == k && Claimed(t, more, w);
      } else {
        assert t.workers[e.who].shard == k && Claimed(t, more, e.who);
      }
    }
  }

  lemma MishapsArePast(p: Plan, s: State, e: Event, log: set<Mishap>)
    requires ClaimsMean(p, s, log) && e.who < |s.workers| && !e.Mark?
    ensures var t, more := Step(p, s, e), log + OneMishap(s, e);
            forall m | m in more && m.who < |t.workers| && (m.at.Claiming? || m.at.Taking?) ::
              !t.workers[m.who].at.Start? && !t.workers[m.who].at.Claiming?
  {
    ControlShape(p, s, e);
    StepShape(p, s, e);
    hide Step, Entered, ClaimedUnheard, UnheardClaim, Claimed, HasClaimer;
  }

  lemma StepKeepsMeaning(p: Plan, s: State, e: Event, log: set<Mishap>)
    requires ClaimsMean(p, s, log) && e.who < |s.workers| && !e.Mark?
    ensures ClaimsMean(p, Step(p, s, e), log + OneMishap(s, e))
  {
    var t, more := Step(p, s, e), log + OneMishap(s, e);
    ShardClaimsMean(p, s, e, log);
    MishapsArePast(p, s, e, log);
    hide Step, Entered, ClaimedUnheard, UnheardClaim, Claimed, HasClaimer, OneMishap;
    forall id | id in t.itemClaims ensures Entered(t, id) || ClaimedUnheard(p, t, more, id) {
      ItemClaimsMean(p, s, e, log, id);
    }
    forall id | ClaimedUnheard(p, t, more, id) ensures id in t.itemClaims { UnheardBefore(p, s, e, log, id); }
  }

  /** Every step keeps what the claims mean and what the workers have done. */
  lemma StepKeepsDone(p: Plan, s: State, e: Event, log: set<Mishap>)
    requires ClaimsMean(p, s, log) && forall w | 0 <= w < |s.workers| :: WorkerDid(p, s, log, w)
    ensures var t := Step(p, s, e); var more := log + OneMishap(s, e);
            ClaimsMean(p, t, more) && forall w | 0 <= w < |t.workers| :: WorkerDid(p, t, more, w)
  {
    var t, more := Step(p, s, e), log + OneMishap(s, e);
    if e.who >= |s.workers| || e.Mark? {
      assert more == log;
      OnlyMarks(p, s, e);
      MarksMeanTheSame(p, s, t, log);
      forall w | 0 <= w < |t.workers| ensures WorkerDid(p, t, more, w) { MarksDidTheSame(p, s, t, log, w); }
    } else {
      hide Step, ClaimsMean, WorkerDid, Follows, OneMishap;
      StepKeepsMeaning(p, s, e, log);
      StepShape(p, s, e);
      StepFollows(p, s, e, log);
      forall w | 0 <= w < |t.workers| ensures WorkerDid(p, t, more, w) {
        if w == e.who { MoverDid(p, s, e, log); } else { DidStays(p, s, t, log, more, w); }
      }
    }
  }

  lemma OnlyMarks(p: Plan, s: State, e: Event)
    requires e.who >= |s.workers| || e.Mark?
    ensures Step(p, s, e) == s.(done := Step(p, s, e).done)
  {
  }

  lemma MarksMeanTheSame(p: Plan, s: State, t: State, log: set<Mishap>)
    requires t == s.(done := t.done) && ClaimsMean(p, s, log)
    ensures ClaimsMean(p, t, log)
  {
    forall id
      ensures Entered(t, id) == Entered(s, id) && ClaimedUnheard(p, t, log, id) == ClaimedUnheard(p, s, log, id)
    {
      SameEntered(p, s, t, log, id);
    }
    hide Entered, ClaimedUnheard;
    forall w | 0 <= w < |s.workers| ensures Claimed(t, log, w) == Claimed(s, log, w) {}
    forall k | k in t.shardClaims ensures HasClaimer(t, log, k) {
      assert HasClaimer(s, log, k);
      var w :| 0 <= w < |s.workers| && s.workers[w].shard == k && Claimed(s, log, w);
      assert t.workers[w].shard == k && Claimed(t, log, w);
    }
  }

  lemma SameEntered(p: Plan, s: State, t: State, log: set<Mishap>, id: int)
    requires t == s.(done := t.done)
    ensures Entered(t, id) == Entered(s, id) && ClaimedUnheard(p, t, log, id) == ClaimedUnheard(p, s, log, id)
  {
    forall m ensures UnheardClaim(p, t, m, id) == UnheardClaim(p, s, m, id) {}
  }

  lemma MarksDidTheSame(p: Plan, s: State, t: State, log: set<Mishap>, who: nat)
    requires t == s.(done := t.done) && who < |s.workers| && WorkerDid(p, s, log, who)
    ensures WorkerDid(p, t, log, who)
  {
    forall id
      ensures Entered(t, id) == Entered(s, id) && ClaimedUnheard(p, t, log, id) == ClaimedUnheard(p, s, log, id)
    {
      SameEntered(p, s, t, log, id);
    }
    hide Entered, ClaimedUnheard, WorkerDid;
    DidStays(p, s, t, log, log, who);
  }

  lemma {:induction false} RunKeepsDone(p: Plan, s: State, events: seq<Event>)
    requires Init(p, s)
    ensures var t := Run(p, s, events); var log := Mishaps(p, s, events);
            ClaimsMean(p, t, log) && forall w | 0 <= w < |t.workers| :: WorkerDid(p, t, log, w)
  {
    hide Step, ClaimsMean, WorkerDid, OneMishap;
    if events == [] {
      NothingDone(p, s);
    } else {
      var front, e := events[..|events| - 1], events[|events| - 1];
      RunKeepsDone(p, s, front);
      StepKeepsDone(p, Run(p, s, front), e, Mishaps(p, s, front));
    }
  }

  lemma NothingDone(p: Plan, s: State)
    requires Init(p, s)
    ensures ClaimsMean(p, s, {}) && forall w | 0 <= w < |s.workers| :: WorkerDid(p, s, {}, w)
  {
  }

  /** Whatever fails: a worker that has finished has put every open item of its own shard into its pool, and an open
      item of another shard is in a pool too, unless that shard has its machine's claim, this very worker failed to look
      at the shard or to claim the item, or a claim of it was carried out that its claimer did not hear of. */
  lemma FinishedWorkerMissesNothing(p: Plan, s: State, events: seq<Event>, who: nat, i: nat)
    requires ValidPlan(p) && Init(p, s) && who < |s.workers| && i < |p.items|
    requires var t := Run(p, s, events);
             who < |t.workers| && t.workers[who].at == Finished && p.items[i] !in t.workers[who].seen
    ensures var t, log := Run(p, s, events), Mishaps(p, s, events);
            var id := p.items[i]; var k := p.shardOf(id);
            if k == t.workers[who].shard then Entered(t, id)
            else
              || Entered(t, id) || k in t.shardClaims
              || Slipped(log, who, Scanning(k)) || Slipped(log, who, Taking(k, i)) || ClaimedUnheard(p, t, log, id)
  {
    hide Step, Run, ClaimsMean, Entered, ClaimedUnheard, Slipped, Mishaps;
    RunKeepsDone(p, s, events);
    SameShards(p, s, events);
    var t, log := Run(p, s, events), Mishaps(p, s, events);
    var k := p.shardOf(p.items[i]);
    assert p.items[i] in p.items;
    assert Open(p, t.workers[who], k, i) && WorkerDid(p, t, log, who);
    if k != t.workers[who].shard {
      assert Tried(p, t, log, who, k, |p.items|);
      assert SeenTo(p, t, log, who, k, i);
    }
  }

  /** The claims on record are exactly those carried out: of a shard, by a worker that went past its claim without a
      refusal; of an item, by one that took it or did not hear of it. */
  lemma ClaimsOnRecord(p: Plan, s: State, events: seq<Event>, k: nat, id: int)
    requires Init(p, s)
    ensures var t, log := Run(p, s, events), Mishaps(p, s, events);
            && (k in t.shardClaims <==> HasClaimer(t, log, k))
            && (ClaimedUnheard(p, t, log, id) ==> id in t.itemClaims)
            && (id in t.itemClaims ==> Entered(t, id) || ClaimedUnheard(p, t, log, id))
  {
    hide Run, Mishaps, WorkerDid, Entered, ClaimedUnheard, Claimed;
    RunKeepsDone(p, s, events);
  }

  // ---- every worker finishes

  /** The steps a scan takes at most from shard k on. */
  function ScanSteps(p: Plan, k: nat): nat
    decreases if k < p.shards then p.shards - k else 0
  {
    if k >= p.shards then 1 else |p.items| + 2 + ScanSteps(p, k + 1)
  }

  /** The steps a worker has before it at most. */
  function Left(p: Plan, w: Worker): nat {
    match w.at
    case Start => |p.items| + 3 + ScanSteps(p, 0)
    case Claiming => |p.items| + 2 + ScanSteps(p, 0)
    case Feeding(i) => (if i <= |p.items| then |p.items| - i else 0) + 1 + ScanSteps(p, 0)
    case Scanning(k) => ScanSteps(p, k)
    case Taking(k, i) => (if i <= |p.items| then |p.items| - i else 0) + 1 + ScanSteps(p, k + 1)
    case Finished => 0
  }

  /** The next step of the worker is a call to the store after which it goes on even if the call fails. */
  ghost predicate Calls(p: Plan, w: Worker) {
    match w.at
    case Claiming => true
    case Scanning(k) => k < p.shards && k != w.shard
    case Taking(k, i) => Open(p, w, k, i)
    case _ => false
  }

  ghost predicate Moves(p: Plan, s: State, e: Event, who: nat) {
    e.who == who && who < |s.workers| && (e.Go? || ((e.Fail? || e.Lose?) && Calls(p, s.workers[who])))
  }

  ghost function MovesOf(p: Plan, s: State, events: seq<Event>, who: nat): nat {
    if events == [] then 0
    else
      var front, e := events[..|events| - 1], events[|events| - 1];
      MovesOf(p, s, front, who) + if Moves(p, Run(p, s, front), e, who) then 1 else 0
  }

  lemma {:induction false} ScanIsBounded(p: Plan, k: nat)
    requires k <= p.shards
    ensures ScanSteps(p, k) == (p.shards - k) * (|p.items| + 2) + 1
    decreases p.shards - k
  {
    if k < p.shards {
      ScanIsBounded(p, k + 1);
      assert (p.shards - k) * (|p.items| + 2) == (p.shards - (k + 1)) * (|p.items| + 2) + (|p.items| + 2);
    }
  }

  lemma NextIsNearer(p: Plan, s: State, who: nat, w: Worker)
    ensures var v := Next(p, s, who, w).1; if w.at == Finished then v == w else Left(p, v) < Left(p, w)
  {
    hide Mine;
  }

  lemma FailedIsNearer(p: Plan, w: Worker)
    ensures Left(p, Failed(w)) <= Left(p, w) && (Calls(p, w) ==> Left(p, Failed(w)) < Left(p, w))
    ensures w.at == Finished ==> Failed(w) == w
  {
    hide Mine;
  }

  lemma StepOfWorker(p: Plan, s: State, e: Event, who: nat)
    requires who < |s.workers|
    ensures who < |Step(p, s, e).workers|
    ensures Step(p, s, e).workers[who] ==
            if e.who != who || e.Mark? then s.workers[who]
            else if e.Go? then Next(p, s, who, s.workers[who]).1 else Failed(s.workers[who])
  {
    hide Next, Lost;
    StepShape(p, s, e);
    if e.Go? && e.who < |s.workers| { NextShape(p, s, e.who, s.workers[e.who]); }
    if e.Lose? && e.who < |s.workers| { LostShape(p, s, s.workers[e.who]); }
  }

  lemma LostShape(p: Plan, s: State, w: Worker)
    ensures Lost(p, s, w).workers == s.workers
  {
  }

  lemma StepIsNearer(p: Plan, s: State, e: Event, who: nat)
    requires who < |s.workers|
    ensures var t := Step(p, s, e); var w := s.workers[who];
            && who < |t.workers| && Left(p, t.workers[who]) <= Left(p, w)
            && (Moves(p, s, e, who) && w.at != Finished ==> Left(p, t.workers[who]) < Left(p, w))
            && (w.at == Finished ==> t.workers[who].at == Finished)
  {
    hide Step, Next, Failed, Left, Calls;
    StepOfWorker(p, s, e, who);
    NextIsNearer(p, s, who, s.workers[who]);
    FailedIsNearer(p, s.workers[who]);
  }

  /** However the others interleave and whatever fails on the way, a worker has finished after as many steps as its
      plan allows: one for each item, and for each shard one for each item and two. */
  lemma {:induction false} EveryWorkerFinishes(p: Plan, s: State, events: seq<Event>, who: nat)
    requires Init(p, s) && who < |s.workers|
    requires MovesOf(p, s, events, who) >= |p.items| + 4 + p.shards * (|p.items| + 2)
    ensures who < |Run(p, s, events).workers| && Run(p, s, events).workers[who].at == Finished
  {
    hide Run, MovesOf;
    ComesNearer(p, s, events, who);
    ScanIsBounded(p, 0);
    NoneLeft(p, Run(p, s, events).workers[who]);
  }

  lemma NoneLeft(p: Plan, w: Worker)
    ensures Left(p, w) == 0 ==> w.at == Finished
  {
    if w.at.Scanning? { assert ScanSteps(p, w.at.k) >= 1; }
  }

  lemma {:induction false} ComesNearer(p: Plan, s: State, events: seq<Event>, who: nat)
    requires who < |s.workers|
    ensures var t := Run(p, s, events);
            && who < |t.workers|
            && (t.workers[who].at == Finished
                || Left(p, t.workers[who]) + MovesOf(p, s, events, who) <= Left(p, s.workers[who]))
  {
    hide Step, Left, Moves;
    if events != [] {
      var front, e := events[..|events| - 1], events[|events| - 1];
      ComesNearer(p, s, front, who);
      StepIsNearer(p, Run(p, s, front), e, who);
    }
  }

  // ---- the done markers

  /** Who has put an item into a pool has listed the markers. */
  ghost predicate TakersListed(s: State) {
    forall x | x in s.entered :: x.who < |s.workers| && !s.workers[x.who].at.Start?
  }

  lemma {:induction false} RunKeepsListed(p: Plan, s: State, events: seq<Event>)
    requires Init(p, s)
    ensures TakersListed(Run(p, s, events)) && |Run(p, s, events).workers| == |s.workers|
  {
    hide Step;
    if events != [] {
      var front, e := events[..|events| - 1], events[|events| - 1];
      RunKeepsListed(p, s, front);
      StepKeepsListed(p, Run(p, s, front), e);
    }
  }

  lemma StepKeepsListed(p: Plan, s: State, e: Event)
    requires TakersListed(s)
    ensures TakersListed(Step(p, s, e)) && |Step(p, s, e).workers| == |s.workers|
  {
    hide Step, Next;
    StepShape(p, s, e);
    var t := Step(p, s, e);
    forall x | x in t.entered ensures x.who < |t.workers| && !t.workers[x.who].at.Start? {
      if x.who < |s.workers| { StepOfWorker(p, s, e, x.who); StaysListed(p, s, x.who); }
      if x !in s.entered { NewIsMovers(p, s, e, x); }
    }
  }

  lemma StaysListed(p: Plan, s: State, who: nat)
    requires who < |s.workers|
    ensures !Next(p, s, who, s.workers[who]).1.at.Start?
    ensures s.workers[who].at.Start? || !Failed(s.workers[who]).at.Start?
  {
    hide Mine;
  }

  /** A new entry is one of the mover's open items. */
  lemma NewIsMovers(p: Plan, s: State, e: Event, x: Entry)
    requires x in Step(p, s, e).entered && x !in s.entered
    ensures e == Go(x.who) && x.who < |s.workers| && !s.workers[x.who].at.Start? && x.id !in s.workers[x.who].seen
  {
  }

  /** Worker who will not take item id any more: it has not listed the markers yet, or has seen that of the item. */
  ghost predicate Spared(s: State, who: nat, id: int) {
    && id in s.done && Entry(who, id) !in s.entered
    && who < |s.workers| && (s.workers[who].at.Start? || id in s.workers[who].seen)
  }

  lemma StepSpares(p: Plan, s: State, e: Event, who: nat, id: int)
    requires Spared(s, who, id)
    ensures Spared(Step(p, s, e), who, id)
  {
    hide Step, Next, Failed;
    var t := Step(p, s, e);
    StepOfWorker(p, s, e, who);
    OnlyMarksAdd(p, s, e);
    SeenByWorker(p, s, who);
    if Entry(who, id) in t.entered { NewIsMovers(p, s, e, Entry(who, id)); }
  }

  lemma OnlyMarksAdd(p: Plan, s: State, e: Event)
    ensures Step(p, s, e).done ==
            s.done + if e.Mark? && e.who < |s.workers| && Entry(e.who, e.id) in s.entered then {e.id} else {}
  {
    hide Mine;
  }

  lemma SeenByWorker(p: Plan, s: State, who: nat)
    requires who < |s.workers|
    ensures var w, v := s.workers[who], Next(p, s, who, s.workers[who]).1;
            v.seen == (if w.at.Start? then s.done else w.seen) && Failed(w).seen == w.seen
            && (w.at.Start? ==> Failed(w).at.Start?)
  {
    hide Mine;
  }

  /** An item that has its marker before a worker lists them is never taken by this worker, whatever fails. */
  lemma {:induction false} MarkedIsNotTaken(p: Plan, s: State, events: seq<Event>, n: nat, who: nat, id: int)
    requires Init(p, s) && n <= |events| && who < |s.workers|
    requires var t := Run(p, s, events[..n]); id in t.done && who < |t.workers| && t.workers[who].at == Start
    ensures Entry(who, id) !in Run(p, s, events).entered && Spared(Run(p, s, events), who, id)
    decreases |events|
  {
    hide Step;
    if n == |events| {
      assert events[..n] == events;
      RunKeepsListed(p, s, events);
    } else {
      var front := events[..|events| - 1];
      assert front[..n] == events[..n];
      MarkedIsNotTaken(p, s, front, n, who, id);
      StepSpares(p, Run(p, s, front), events[|events| - 1], who, id);
    }
  }

  /** An item has a marker if and only if it had one at the start or a worker finished it after taking it. */
  lemma {:induction false} DoneMeans(p: Plan, s: State, events: seq<Event>, id: int)
    requires Init(p, s)
    ensures id in Run(p, s, events).done <==>
            id in s.done
            || exists k :: 0 <= k < |events| && events[k].Mark? && events[k].id == id
                 && Entry(events[k].who, id) in Run(p, s, events[..k]).entered
  {
    hide Step;
    if events != [] {
      var n := |events| - 1;
      var front, e := events[..n], events[n];
      DoneMeans(p, s, front, id);
      OnlyMarksAdd(p, Run(p, s, front), e);
      RunKeepsListed(p, s, front);
      assert forall k | 0 <= k < n :: front[k] == events[k] && front[..k] == events[..k];
    }
  }

  // ---- when an item can enter two pools

  /** An item of a started shard that has no marker. */
  ghost predicate OpenAt(p: Plan, s: State, w: nat, i: nat) {
    w < |s.workers| && i < |p.items| && p.shardOf(p.items[i]) == s.workers[w].shard && p.items[i] !in s.done
  }

  /** Two machines, and an open item of the shard of one of them. */
  ghost predicate CanShareTwice(p: Plan, s: State) {
    |s.workers| >= 2 && exists w, i :: OpenAt(p, s, w, i)
  }

  /** A machine alone finds no other's claim missing. */
  lemma AloneIsTimely(p: Plan, s: State, events: seq<Event>)
    requires Init(p, s) && |s.workers| <= 1
    ensures TimelyRun(p, s, events)
  {
    hide Run, Step;
    forall n | 0 <= n < |events| ensures Timely(p, Run(p, s, events[..n]), events[n]) {
      SameShards(p, s, events[..n]);
    }
  }

  /** Everything that entered was claimed as an item, and entered once. */
  ghost predicate AllClaimed(s: State) {
    (forall n | 0 <= n < |s.entered| :: s.entered[n].id in s.itemClaims) && Distinct(s.entered)
  }

  lemma StepKeepsClaimed(p: Plan, s: State, e: Event, done0: set<int>)
    requires AllClaimed(s) && MarkersOk(p, s, done0)
    requires forall w: nat, i: nat | w < |s.workers| && i < |p.items| && p.shardOf(p.items[i]) == s.workers[w].shard ::
             p.items[i] in done0
    ensures AllClaimed(Step(p, s, e))
  {
    StepShape(p, s, e);
    var t := Step(p, s, e);
    if t.entered != s.entered {
      var w := s.workers[e.who];
      assert w.at.Taking?;
      assert t.entered == s.entered + [Entry(e.who, p.items[w.at.i])] && p.items[w.at.i] !in s.itemClaims;
    }
  }

  lemma {:induction false} RunKeepsClaimed(p: Plan, s: State, events: seq<Event>)
    requires Init(p, s) && forall w, i :: !OpenAt(p, s, w, i)
    ensures AllClaimed(Run(p, s, events)) && MarkersOk(p, Run(p, s, events), s.done)
  {
    hide Step;
    if events != [] {
      var front, e := events[..|events| - 1], events[|events| - 1];
      RunKeepsClaimed(p, s, front);
      SameShards(p, s, front);
      StepKeepsMarkers(p, Run(p, s, front), e, s.done);
      forall w: nat, i: nat | w < |s.workers| && i < |p.items| && p.shardOf(p.items[i]) == s.workers[w].shard
        ensures p.items[i] in s.done
      {
        assert !OpenAt(p, s, w, i);
      }
      StepKeepsClaimed(p, Run(p, s, front), e, s.done);
    }
  }

  ghost predicate Reaches(p: Plan, s: State, t: State) {
    exists events :: Run(p, s, events) == t
  }

  lemma ReachesOn(p: Plan, s: State, t: State, e: Event)
    requires Reaches(p, s, t)
    ensures Reaches(p, s, Step(p, t, e))
  {
    hide Step;
    var events :| Run(p, s, events) == t;
    assert (events + [e])[..|events|] == events;
    assert Run(p, s, events + [e]) == Step(p, t, e);
  }

  lemma ReachesSelf(p: Plan, s: State)
    ensures Reaches(p, s, s)
  {
    assert Run(p, s, []) == s;
  }

  /** Worker v has moved alone so far, and has not come to item i, an open one of w's shard. */
  ghost predicate Before(p: Plan, s: State, t: State, v: nat, w: nat, i: nat) {
    && Reaches(p, s, t) && |t.workers| == |s.workers| && v < |s.workers| && w < |s.workers| && v != w
    && i < |p.items| && p.shardOf(p.items[i]) == s.workers[w].shard && p.items[i] !in s.done
    && t.done == s.done && t.workers[w] == s.workers[w] && t.workers[v].shard == s.workers[v].shard
    && p.items[i] !in t.itemClaims && t.shardClaims <= {s.workers[v].shard}
    && (!t.workers[v].at.Start? ==> t.workers[v].seen == s.done)
  }

  lemma GoesOn(p: Plan, s: State, t: State, v: nat, w: nat, i: nat) returns (u: State)
    requires ValidPlan(p) && Before(p, s, t, v, w, i) && t.workers[v].at != Taking(s.workers[w].shard, i)
    ensures Before(p, s, u, v, w, i) && u.workers[v] == Next(p, t, v, t.workers[v]).1
  {
    hide Reaches;
    ReachesOn(p, s, t, Go(v));
    u := Step(p, t, Go(v));
  }

  /** Worker v takes the first n items of an orphan shard. */
  lemma TakesUpTo(p: Plan, s: State, t: State, v: nat, w: nat, i: nat, k: nat, n: nat) returns (u: State)
    requires ValidPlan(p) && Before(p, s, t, v, w, i) && t.workers[v].at == Taking(k, 0)
    requires n <= |p.items| && (k == s.workers[w].shard ==> n <= i)
    ensures Before(p, s, u, v, w, i) && u.workers[v].at == Taking(k, n)
  {
    WorkersAlike(p, s, t, v, w, i);
    hide Before;
    u := t;
    for j := 0 to n
      invariant Before(p, s, u, v, w, i) && v < |u.workers| && u.workers[v].at == Taking(k, j)
    {
      u := GoesOnShape(p, s, u, v, w, i);
    }
  }

  lemma GoesOnShape(p: Plan, s: State, t: State, v: nat, w: nat, i: nat) returns (u: State)
    requires ValidPlan(p) && Before(p, s, t, v, w, i) && v < |t.workers|
    requires w < |s.workers| && t.workers[v].at != Taking(s.workers[w].shard, i)
    ensures Before(p, s, u, v, w, i) && v < |u.workers|
    ensures t.workers[v].at == Start ==> u.workers[v].at == Claiming
    ensures t.workers[v].at == Claiming ==> u.workers[v].at == Feeding(0)
    ensures t.workers[v].at.Feeding? && t.workers[v].at.i < |p.items| ==>
            u.workers[v].at == Feeding(t.workers[v].at.i + 1)
    ensures t.workers[v].at.Feeding? && t.workers[v].at.i >= |p.items| && p.shards > 1 ==>
            u.workers[v].at == Scanning(0)
    ensures t.workers[v].at.Scanning? && t.workers[v].at.k < p.shards ==>
              var k := t.workers[v].at.k;
              u.workers[v].at == if k in t.shardClaims || k == t.workers[v].shard then Scanning(k + 1) else Taking(k, 0)
    ensures t.workers[v].at.Taking? ==>
              var at := t.workers[v].at;
              u.workers[v].at == if at.i < |p.items| then Taking(at.k, at.i + 1) else Scanning(at.k + 1)
  {
    hide Before;
    u := GoesOn(p, s, t, v, w, i);
    WorkersAlike(p, s, u, v, w, i);
  }

  lemma WorkersAlike(p: Plan, s: State, t: State, v: nat, w: nat, i: nat)
    requires Before(p, s, t, v, w, i)
    ensures v < |t.workers| && w < |s.workers| && |t.workers| == |s.workers| && i < |p.items|
    ensures t.workers[v].shard == s.workers[v].shard && t.shardClaims <= {s.workers[v].shard}
  {
  }

  lemma TwoShards(p: Plan, s: State, v: nat, w: nat)
    requires Init(p, s) && v < |s.workers| && w < |s.workers| && v != w
    ensures p.shards > 1
  {
    var a, b := if v < w then v else w, if v < w then w else v;
    assert s.workers[a].shard != s.workers[b].shard;
  }

  /** Worker v feeds its own shard and begins to scan. */
  lemma ComesToScan(p: Plan, s: State, v: nat, w: nat, i: nat) returns (t: State)
    requires ValidPlan(p) && Init(p, s) && v < |s.workers| && v != w && OpenAt(p, s, w, i)
    ensures Before(p, s, t, v, w, i) && v < |t.workers| && t.workers[v].at == Scanning(0)
  {
    t := s;
    assert Before(p, s, t, v, w, i) by { ReachesSelf(p, s); }
    assert p.shards > 1 by { TwoShards(p, s, v, w); }
    hide Before, Reaches, Init, OpenAt, ValidPlan;
    t := GoesOnShape(p, s, t, v, w, i);
    t := GoesOnShape(p, s, t, v, w, i);
    for j := 0 to |p.items|
      invariant Before(p, s, t, v, w, i) && v < |t.workers| && t.workers[v].at == Feeding(j)
    {
      t := GoesOnShape(p, s, t, v, w, i);
    }
    t := GoesOnShape(p, s, t, v, w, i);
  }

  /** Worker v scans one shard before w's. */
  lemma ScansOne(p: Plan, s: State, t0: State, v: nat, w: nat, i: nat, k: nat) returns (t: State)
    requires ValidPlan(p) && Before(p, s, t0, v, w, i) && v < |t0.workers| && t0.workers[v].at == Scanning(k)
    requires w < |s.workers| && k < s.workers[w].shard < p.shards
    ensures Before(p, s, t, v, w, i) && v < |t.workers| && t.workers[v].at == Scanning(k + 1)
  {
    hide Before, ValidPlan;
    t := GoesOnShape(p, s, t0, v, w, i);
    if t.workers[v].at.Taking? {
      t := TakesUpTo(p, s, t, v, w, i, k, |p.items|);
      TakesShape(p, s, t, v, w, i);
      t := GoesOnShape(p, s, t, v, w, i);
    }
  }

  lemma TakesShape(p: Plan, s: State, t: State, v: nat, w: nat, i: nat)
    requires Before(p, s, t, v, w, i)
    ensures v < |t.workers| && i < |p.items|
  {
  }

  /** Worker v comes to the test of w's shard and, its claim missing, to item i. */
  lemma ComesToItem(p: Plan, s: State, v: nat, w: nat, i: nat) returns (t: State)
    requires ValidPlan(p) && Init(p, s) && v < |s.workers| && v != w && OpenAt(p, s, w, i)
    ensures Before(p, s, t, v, w, i) && t.workers[v].at == Taking(s.workers[w].shard, i)
  {
    t := ComesToScan(p, s, v, w, i);
    var shard := s.workers[w].shard;
    assert shard < p.shards && s.workers[v].shard != shard by { OtherShard(p, s, v, w); }
    hide Before, Init, OpenAt, ValidPlan;
    for k := 0 to shard
      invariant Before(p, s, t, v, w, i) && v < |t.workers| && t.workers[v].at == Scanning(k)
    {
      t := ScansOne(p, s, t, v, w, i, k);
    }
    WorkersAlike(p, s, t, v, w, i);
    t := GoesOnShape(p, s, t, v, w, i);
    t := TakesUpTo(p, s, t, v, w, i, shard, i);
    WorkersAlike(p, s, t, v, w, i);
  }

  lemma OtherShard(p: Plan, s: State, v: nat, w: nat)
    requires Init(p, s) && v < |s.workers| && w < |s.workers| && v != w
    ensures s.workers[w].shard < p.shards && s.workers[v].shard != s.workers[w].shard
  {
    var a, b := if v < w then v else w, if v < w then w else v;
    assert s.workers[a].shard != s.workers[b].shard;
  }

  /** Item id has entered a pool, and worker w is still to begin, or feeds its items before it. */
  ghost predicate Doubled(p: Plan, s: State, t: State, w: nat, i: nat) {
    && Reaches(p, s, t) && w < |t.workers| && i < |p.items| && p.shardOf(p.items[i]) == t.workers[w].shard
    && p.items[i] !in t.done && (!t.workers[w].at.Start? ==> p.items[i] !in t.workers[w].seen)
    && Entered(t, p.items[i])
  }

  lemma StaysDoubled(p: Plan, s: State, t: State, w: nat, i: nat) returns (u: State)
    requires Doubled(p, s, t, w, i)
    ensures Doubled(p, s, u, w, i) && u.workers[w] == Next(p, t, w, t.workers[w]).1
    ensures t.workers[w].at == Feeding(i) ==> !Distinct(u.entered)
  {
    hide Reaches;
    ReachesOn(p, s, t, Go(w));
    u := Step(p, t, Go(w));
    EnteredStays(p, t, Go(w));
    if t.workers[w].at == Feeding(i) {
      var n :| 0 <= n < |t.entered| && t.entered[n].id == p.items[i];
      assert u.entered == t.entered + [Entry(w, p.items[i])];
      assert u.entered[n].id == u.entered[|t.entered|].id;
    }
  }

  /** Worker w then takes the item from its own shard. */
  lemma FeedsAgain(p: Plan, s: State, t0: State, w: nat, i: nat) returns (t: State)
    requires Doubled(p, s, t0, w, i) && t0.workers[w].at == Start
    ensures Reaches(p, s, t) && !Distinct(t.entered)
  {
    hide Reaches, Entered, Distinct;
    t := StaysDoubled(p, s, t0, w, i);
    t := StaysDoubled(p, s, t, w, i);
    for j := 0 to i
      invariant Doubled(p, s, t, w, i) && t.workers[w].at == Feeding(j)
    {
      t := StaysDoubled(p, s, t, w, i);
    }
    t := StaysDoubled(p, s, t, w, i);
  }

  lemma TakesItem(p: Plan, s: State, t: State, v: nat, w: nat, i: nat) returns (u: State)
    requires Init(p, s) && Before(p, s, t, v, w, i) && t.workers[v].at == Taking(s.workers[w].shard, i)
    ensures Doubled(p, s, u, w, i) && u.workers[w].at == Start
  {
    hide Reaches;
    ReachesOn(p, s, t, Go(v));
    u := Step(p, t, Go(v));
    assert u.entered == t.entered + [Entry(v, p.items[i])];
    assert u.entered[|t.entered|].id == p.items[i];
  }

  /** Some interleaving puts an item into two pools exactly when there are two machines and an item of the shard of one
      of them had no marker at the start. */
  lemma ItemTwicePossible(p: Plan, s: State)
    requires ValidPlan(p) && Init(p, s)
    ensures (exists events :: !Distinct(Run(p, s, events).entered)) <==> CanShareTwice(p, s)
  {
    hide Run, Distinct, TimelyRun;
    forall events | !Distinct(Run(p, s, events).entered) ensures CanShareTwice(p, s) {
      if |s.workers| <= 1 {
        AloneIsTimely(p, s, events);
        NoItemTwice(p, s, events);
      } else if forall w, i :: !OpenAt(p, s, w, i) {
        RunKeepsClaimed(p, s, events);
      }
    }
    if CanShareTwice(p, s) {
      var w, i :| OpenAt(p, s, w, i);
      var v := if w == 0 then 1 else 0;
      var t := ComesToItem(p, s, v, w, i);
      t := TakesItem(p, s, t, v, w, i);
      t := FeedsAgain(p, s, t, w, i);
      var events :| Run(p, s, events) == t;
      assert !Distinct(Run(p, s, events).entered);
    }
  }

  const LATE := Plan([7], 2, (id: int) => 1)
  const FRESH := State({}, {}, {}, [Worker(0, Start, {}), Worker(1, Start, {})], [], true)

  /** Two machines and one item: worker 0 takes it before the claim of worker 1 lands, and worker 1 feeds it too. */
  lemma LateClaimSharesTwice()
    ensures ValidPlan(LATE) && Init(LATE, FRESH) && exists events :: !Distinct(Run(LATE, FRESH, events).entered)
  {
    assert OpenAt(LATE, FRESH, 1, 0);
    ItemTwicePossible(LATE, FRESH);
  }
}
