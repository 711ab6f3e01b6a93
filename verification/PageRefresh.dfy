/** The single page refresh at the end of a re-parse run (internal/reparse/worker.go, Run and internal/reparse/plan.go,
    Dispatch). Workers and planners share the done markers and one "dispatched" marker; each step below is one call to
    the store or to GitHub, the steps of all callers interleave freely, and every call may fail. */
module PageRefresh {
  import opened Sets

  datatype Result = LeftOver | NoGitHub | Already | Queued | Dispatched | Error

  /** The next call of a caller. A planner starts at Creating. */
  datatype Control =
    | Working                       // replays are being parsed; markers are written
    | Listing                       // list the done markers once more
    | Checking(i: nat, left: nat)   // is plan item i, if it has no marker, still stored?
    | Creating                      // conditional create of the dispatched marker
    | Asking                        // does a run of the workflow wait already?
    | Dispatching
    | Releasing                     // delete the marker after a GitHub failure
    | Ended(result: Result)

  /** seen: the markers listed; gone: the plan items found absent from the vault. */
  datatype Caller = Caller(worker: bool, plan: seq<int>, at: Control, seen: set<int>, gone: set<int>)

  /** accepted counts the dispatches GitHub acknowledged, unacknowledged those it took without the caller learning of
      it; smooth: no call failed and no run was queued. */
  datatype State = State(
    done: set<int>, stored: set<int>, marker: bool, github: bool,
    accepted: nat, unacknowledged: nat, smooth: bool, callers: seq<Caller>)

  datatype Answer = Yes | No | Fails | Unanswered

  datatype Event =
    | Mark(who: nat, id: int)          // a working worker writes a done marker
    | Finish(who: nat)                 // its pool is empty
    | Removed(id: int)                 // retention deletes a replay
    | Added(id: int)                   // someone stores a replay
    | Call(who: nat, answer: Answer)   // the caller's next call

  function Go(s: State, w: nat, at: Control): State
    requires w < |s.callers|
  {
    s.(callers := s.callers[w := s.callers[w].(at := at)])
  }

  function Step(s: State, e: Event): State {
    match e
    case Removed(id) => s.(stored := s.stored - {id})
    case Added(id) => s.(stored := s.stored + {id})
    case Mark(w, id) =>
      if w < |s.callers| && s.callers[w].at.Working? then s.(done := s.done + {id}) else s
    case Finish(w) =>
      if w < |s.callers| && s.callers[w].at.Working? then Go(s, w, Listing) else s
    case Call(w, a) =>
      if w >= |s.callers| then s else CallStep(s, w, a)
  }

  function CallStep(s: State, w: nat, a: Answer): State
    requires w < |s.callers|
  {
    var (t, c) := Next(s, s.callers[w], a);
    t.(callers := t.callers[w := c])
  }

  /** One call of caller c: the shared state after it, and the caller. */
  function Next(s: State, c: Caller, a: Answer): (State, Caller) {
    var failed := a.Fails? || a.Unanswered?;
    var rough := s.(smooth := false);
    match c.at
    case Working => (s, c)
    case Ended(_) => (s, c)
    case Listing =>
      if failed then (rough, c.(at := Ended(Error)))
      else (s, c.(seen := s.done, at := Checking(0, 0)))
    case Checking(i, left) =>
      if i >= |c.plan| then (s, c.(at := if left > 0 then Ended(LeftOver) else Creating))
      else if c.plan[i] in c.seen then (s, c.(at := Checking(i + 1, left)))
      else if failed then (rough, c.(at := Checking(i + 1, left + 1)))
      else if c.plan[i] in s.stored then (s, c.(at := Checking(i + 1, left + 1)))
      else (s, c.(gone := c.gone + {c.plan[i]}, at := Checking(i + 1, left)))
    case Creating =>
      if !s.github then (s, c.(at := Ended(NoGitHub)))
      else if a.Fails? then (rough, c.(at := Ended(Error)))
      else if a.Unanswered? then (rough.(marker := true), c.(at := Ended(Error)))
      else if s.marker then (s, c.(at := Ended(Already)))
      else (s.(marker := true), c.(at := Asking))
    case Asking =>
      if failed then (rough, c.(at := Releasing))
      else if a.Yes? then (rough, c.(at := Ended(Queued)))
      else (s, c.(at := Dispatching))
    case Dispatching =>
      if a.Fails? then (rough, c.(at := Releasing))
      else if a.Unanswered? then (rough.(unacknowledged := s.unacknowledged + 1), c.(at := Releasing))
      else (s.(accepted := s.accepted + 1), c.(at := Ended(Dispatched)))
    case Releasing =>
      if a.Fails? then (s, c.(at := Ended(Error))) else (s.(marker := false), c.(at := Ended(Error)))
  }

  function Run(s: State, events: seq<Event>): State {
    if events == [] then s else Step(Run(s, events[..|events| - 1]), events[|events| - 1])
  }

  ghost predicate Init(s: State) {
    && !s.marker && s.accepted == 0 && s.unacknowledged == 0 && s.smooth
    && forall w | 0 <= w < |s.callers| ::
         s.callers[w].at == (if s.callers[w].worker then Working else Creating)
         && s.callers[w].seen == {} && s.callers[w].gone == {}
  }

  // ---- at most one refresh

  /** The caller created the marker and has not ended. */
  predicate Holds(c: Caller) {
    c.at.Asking? || c.at.Dispatching? || c.at.Releasing?
  }

  ghost predicate OneHolder(s: State) {
    && (forall w | 0 <= w < |s.callers| && Holds(s.callers[w]) :: s.marker && s.accepted == 0)
    && (forall v, w | 0 <= v < |s.callers| && 0 <= w < |s.callers| && Holds(s.callers[v]) && Holds(s.callers[w]) ::
       v == w)
    && s.accepted <= 1
    && (s.accepted == 1 ==> s.marker)
    && (forall w | 0 <= w < |s.callers| && s.callers[w].at == Ended(Dispatched) :: s.accepted == 1)
  }

  lemma NextShape(s: State, c: Caller, a: Answer)
    ensures var (t, d) := Next(s, c, a);
            && t.callers == s.callers && d.worker == c.worker && d.plan == c.plan
            && t.done == s.done && t.stored == s.stored && t.github == s.github
            && (t.smooth ==> s.smooth)
            && (c.at.Working? || c.at.Ended? ==> t == s && d == c)
  {
  }

  /** What a call can change. */
  lemma CallShape(s: State, w: nat, a: Answer)
    requires w < |s.callers|
    ensures var t := CallStep(s, w, a);
            && t.callers == s.callers[w := t.callers[w]]
            && t.callers[w].worker == s.callers[w].worker && t.callers[w].plan == s.callers[w].plan
            && t.done == s.done && t.stored == s.stored && t.github == s.github
            && (t.smooth ==> s.smooth)
            && (s.callers[w].at.Working? || s.callers[w].at.Ended? ==> t == s)
  {
    hide Next;
    NextShape(s, s.callers[w], a);
    assert s.callers[w := s.callers[w]] == s.callers;
  }

  /** How a call can touch the marker and the count. */
  lemma MarkerShape(s: State, w: nat, a: Answer)
    requires w < |s.callers|
    ensures var t := CallStep(s, w, a);
            var c, d := s.callers[w], t.callers[w];
            && (Holds(d) && !Holds(c) ==> !s.marker && t.marker && t.accepted == s.accepted)
            && (Holds(c) && Holds(d) ==> t.marker == s.marker && t.accepted == s.accepted)
            && (s.marker && !t.marker ==> Holds(c) && !Holds(d) && t.accepted == s.accepted)
            && (t.accepted != s.accepted ==>
               Holds(c) && !Holds(d) && t.accepted == s.accepted + 1 && t.marker == s.marker)
            && (d.at == Ended(Dispatched) ==> c.at == Ended(Dispatched) || t.accepted == s.accepted + 1)
            && (!s.marker && t.marker ==> Holds(d) || !t.smooth)
            && (Holds(c) && !Holds(d) && t.smooth ==> c.at.Releasing? || t.accepted == s.accepted + 1)
  {
    hide Next, Holds;
    NextShape(s, s.callers[w], a);
    NextMarker(s, s.callers[w], a);
  }

  lemma NextMarker(s: State, c: Caller, a: Answer)
    ensures var (t, d) := Next(s, c, a);
            && (Holds(d) && !Holds(c) ==> !s.marker && t.marker && t.accepted == s.accepted)
            && (Holds(c) && Holds(d) ==> t.marker == s.marker && t.accepted == s.accepted)
            && (s.marker && !t.marker ==> Holds(c) && !Holds(d) && t.accepted == s.accepted)
            && (t.accepted != s.accepted ==>
               Holds(c) && !Holds(d) && t.accepted == s.accepted + 1 && t.marker == s.marker)
            && (d.at == Ended(Dispatched) ==> c.at == Ended(Dispatched) || t.accepted == s.accepted + 1)
            && (!s.marker && t.marker ==> Holds(d) || !t.smooth)
            && (Holds(c) && !Holds(d) && t.smooth ==> c.at.Releasing? || t.accepted == s.accepted + 1)
  {
  }

  lemma StepKeepsOneHolder(s: State, e: Event)
    requires OneHolder(s)
    ensures OneHolder(Step(s, e))
  {
    hide CallStep, Holds;
    if e.Call? && e.who < |s.callers| {
      CallShape(s, e.who, e.answer);
      MarkerShape(s, e.who, e.answer);
      if s.callers[e.who].at == Ended(Dispatched) { assert Step(s, e) == s; }
    } else {
      forall w | 0 <= w < |s.callers| ensures Holds(Step(s, e).callers[w]) == Holds(s.callers[w]) {
        WorkersHoldNothing(s, e, w);
      }
      SameHolders(s, Step(s, e));
    }
  }

  lemma WorkersHoldNothing(s: State, e: Event, w: nat)
    requires w < |s.callers| && !(e.Call? && e.who < |s.callers|)
    ensures w < |Step(s, e).callers| && Holds(Step(s, e).callers[w]) == Holds(s.callers[w])
  {
  }

  lemma SameHolders(s: State, t: State)
    requires OneHolder(s) && t.marker == s.marker && t.accepted == s.accepted && |t.callers| == |s.callers|
    requires forall w | 0 <= w < |s.callers| :: Holds(t.callers[w]) == Holds(s.callers[w])
    requires forall w | 0 <= w < |s.callers| ::
             t.callers[w].at == Ended(Dispatched) ==> s.callers[w].at == Ended(Dispatched)
    ensures OneHolder(t)
  {
    hide Holds;
  }

  // ---- no refresh before everything is accounted for

  /** Each item among the first i of the plan has a marker in the listing, was found absent, or counts as left. */
  ghost predicate Accounted(c: Caller, i: nat, left: nat) {
    && i <= |c.plan|
    && (left == 0 ==> forall j | 0 <= j < i :: c.plan[j] in c.seen || c.plan[j] in c.gone)
    && (left > 0 ==> exists j :: 0 <= j < i && c.plan[j] !in c.seen)
  }

  ghost predicate PastCheck(c: Caller) {
    Holds(c) || c.at.Creating? || (c.at.Ended? && c.at.result in {Already, Queued, Dispatched, NoGitHub})
  }

  ghost predicate CallerOk(s: State, c: Caller) {
    && c.seen <= s.done
    && (c.at.Working? || c.at.Listing? ==> c.worker)
    && (c.at.Checking? ==> Accounted(c, c.at.i, c.at.left))
    && (c.worker && PastCheck(c) ==> Accounted(c, |c.plan|, 0))
    && (c.at == Ended(LeftOver) ==> exists j :: 0 <= j < |c.plan| && c.plan[j] !in c.seen)
    && (s.smooth ==> !c.at.Releasing? && c.at != Ended(Error) && c.at != Ended(Queued))
    && (c.at == Ended(Already) ==> s.marker || !s.smooth)
    && (c.at == Ended(NoGitHub) ==> !s.github)
  }

  ghost predicate CallersOk(s: State) {
    forall w | 0 <= w < |s.callers| :: CallerOk(s, s.callers[w])
  }

  lemma CheckKeepsCaller(s: State, c: Caller, a: Answer)
    requires CallerOk(s, c) && c.at.Checking?
    ensures var (t, d) := Next(s, c, a); CallerOk(t, d)
  {
    var (t, d) := Next(s, c, a);
    var i, left := c.at.i, c.at.left;
    if i < |c.plan| {
      if left > 0 {
        var j :| 0 <= j < i && c.plan[j] !in c.seen;
        assert d.plan[j] !in d.seen;
      }
      if d.at.left > left { assert d.plan[i] !in d.seen; }
      assert Accounted(d, i + 1, d.at.left);
    } else if left == 0 {
      assert Accounted(d, |d.plan|, 0);
    }
  }

  lemma CallKeepsCaller(s: State, c: Caller, a: Answer)
    requires CallerOk(s, c)
    ensures var (t, d) := Next(s, c, a); CallerOk(t, d)
  {
    hide Accounted;
    var (t, d) := Next(s, c, a);
    if c.at.Checking? {
      CheckKeepsCaller(s, c, a);
    } else if c.at.Listing? {
      NothingChecked(d);
    } else {
      SameAccount(c, d);
    }
  }

  lemma NothingChecked(d: Caller)
    ensures Accounted(d, 0, 0)
  {
  }

  lemma SameAccount(c: Caller, d: Caller)
    requires c.plan == d.plan && c.seen == d.seen && c.gone == d.gone
    ensures Accounted(c, |c.plan|, 0) == Accounted(d, |d.plan|, 0)
  {
  }

  /** A caller is not harmed by what another one does. */
  lemma OthersCaller(s: State, w: nat, a: Answer, c: Caller)
    requires w < |s.callers| && CallerOk(s, c) && CallerOk(s, s.callers[w])
    ensures CallerOk(CallStep(s, w, a), c)
  {
    hide CallStep, Accounted;
    CallShape(s, w, a);
    MarkerShape(s, w, a);
    if s.callers[w].at.Releasing? {
      assert !s.smooth;
    } else if s.marker && !CallStep(s, w, a).marker {
      ReleasingOnly(s, w, a);
    }
  }

  lemma ReleasingOnly(s: State, w: nat, a: Answer)
    requires w < |s.callers| && s.marker && !CallStep(s, w, a).marker
    ensures s.callers[w].at.Releasing?
  {
  }

  lemma CalledCaller(s: State, w: nat, a: Answer)
    requires w < |s.callers|
    requires var (t, d) := Next(s, s.callers[w], a); CallerOk(t, d)
    ensures var t := CallStep(s, w, a);
            w < |t.callers| && CallerOk(t, t.callers[w])
  {
    hide Accounted;
  }

  lemma StepKeepsCallers(s: State, e: Event)
    requires CallersOk(s) && OneHolder(s)
    ensures CallersOk(Step(s, e))
  {
    hide CallStep, CallerOk, OneHolder;
    var t := Step(s, e);
    if e.Call? && e.who < |s.callers| {
      CallShape(s, e.who, e.answer);
      CallKeepsCaller(s, s.callers[e.who], e.answer);
      CalledCaller(s, e.who, e.answer);
      forall x | 0 <= x < |t.callers| ensures CallerOk(t, t.callers[x]) {
        if x != e.who { OthersCaller(s, e.who, e.answer, s.callers[x]); }
      }
    } else {
      forall x | 0 <= x < |t.callers| ensures CallerOk(t, t.callers[x]) {
        QuietCaller(s, e, x);
      }
    }
  }

  lemma QuietCaller(s: State, e: Event, x: nat)
    requires x < |s.callers| && CallerOk(s, s.callers[x]) && !(e.Call? && e.who < |s.callers|)
    ensures x < |Step(s, e).callers| && CallerOk(Step(s, e), Step(s, e).callers[x])
  {
    hide CallStep, Accounted;
    if s.callers[x].at != Step(s, e).callers[x].at { assert Step(s, e).callers[x].at == Listing; }
  }

  // ---- the last worker to list sees every marker

  ghost predicate StillToList(c: Caller) {
    c.at.Working? || c.at.Listing?
  }

  ghost predicate LastSeesAll(s: State) {
    s.smooth && (forall w | 0 <= w < |s.callers| :: !StillToList(s.callers[w])) ==>
      exists w :: 0 <= w < |s.callers| && s.callers[w].worker && s.callers[w].seen == s.done
  }

  /** In a smooth run the marker is held, or its holder has been acknowledged. */
  ghost predicate MarkerAccounted(s: State) {
    s.smooth && s.marker ==> s.accepted == 1 || exists w :: 0 <= w < |s.callers| && Holds(s.callers[w])
  }

  lemma StepKeepsLast(s: State, e: Event)
    requires LastSeesAll(s) && CallersOk(s)
    ensures LastSeesAll(Step(s, e))
  {
    hide CallStep, OneHolder;
    var t := Step(s, e);
    if t.smooth && (forall w | 0 <= w < |t.callers| :: !StillToList(t.callers[w])) {
      if e.Call? && e.who < |s.callers| && StillToList(s.callers[e.who]) {
        CallShape(s, e.who, e.answer);
        ListingShape(s, e.who, e.answer);
        assert CallerOk(s, s.callers[e.who]);
        assert t.callers[e.who].worker && t.callers[e.who].seen == t.done;
      } else {
        if e.Call? && e.who < |s.callers| {
          CallShape(s, e.who, e.answer);
          ListingShape(s, e.who, e.answer);
        }
        forall w | 0 <= w < |s.callers| ensures !StillToList(s.callers[w]) {
          assert !StillToList(t.callers[w]);
        }
        var w :| 0 <= w < |s.callers| && s.callers[w].worker && s.callers[w].seen == s.done;
        assert t.callers[w].worker && t.callers[w].seen == t.done;
      }
    }
  }

  lemma ListingShape(s: State, w: nat, a: Answer)
    requires w < |s.callers|
    ensures var t := CallStep(s, w, a);
            && (s.callers[w].at.Listing? && t.smooth ==> t.callers[w].seen == s.done)
            && (!s.callers[w].at.Listing? ==> t.callers[w].seen == s.callers[w].seen)
            && (StillToList(t.callers[w]) ==> s.callers[w].at.Working?)
  {
    hide Next, StillToList;
    NextShape(s, s.callers[w], a);
    NextListing(s, s.callers[w], a);
  }

  lemma NextListing(s: State, c: Caller, a: Answer)
    ensures var (t, d) := Next(s, c, a);
            && (c.at.Listing? && t.smooth ==> d.seen == s.done)
            && (!c.at.Listing? ==> d.seen == c.seen)
            && (StillToList(d) ==> c.at.Working?)
  {
  }

  lemma StepKeepsMarker(s: State, e: Event)
    requires MarkerAccounted(s) && CallersOk(s) && OneHolder(s)
    ensures MarkerAccounted(Step(s, e))
  {
    hide CallStep, Holds, Accounted;
    var t := Step(s, e);
    if t.smooth && t.marker && t.accepted != 1 {
      if e.Call? && e.who < |s.callers| {
        CallShape(s, e.who, e.answer);
        MarkerShape(s, e.who, e.answer);
        if Holds(t.callers[e.who]) {
        } else {
          assert s.marker;
          assert CallerOk(s, s.callers[e.who]);
          var h :| 0 <= h < |s.callers| && Holds(s.callers[h]);
          assert Holds(t.callers[h]);
        }
      } else {
        var h :| 0 <= h < |s.callers| && Holds(s.callers[h]);
        WorkersHoldNothing(s, e, h);
      }
    }
  }

  ghost predicate Inv(s: State) {
    OneHolder(s) && CallersOk(s) && LastSeesAll(s) && MarkerAccounted(s)
  }

  lemma StepCount(s: State, e: Event)
    ensures |Step(s, e).callers| == |s.callers|
  {
    hide CallStep;
    if e.Call? && e.who < |s.callers| { CallShape(s, e.who, e.answer); }
  }

  lemma {:induction false} RunKeepsInv(s: State, events: seq<Event>)
    requires Init(s) && exists w :: 0 <= w < |s.callers| && s.callers[w].worker
    ensures Inv(Run(s, events)) && |Run(s, events).callers| == |s.callers|
  {
    hide Step, CallStep;
    if events != [] {
      var front, e := events[..|events| - 1], events[|events| - 1];
      RunKeepsInv(s, front);
      StepKeepsOneHolder(Run(s, front), e);
      StepKeepsCallers(Run(s, front), e);
      StepKeepsLast(Run(s, front), e);
      StepKeepsMarker(Run(s, front), e);
      StepCount(Run(s, front), e);
    }
  }

  lemma {:induction false} RunKeepsSafety(s: State, events: seq<Event>)
    requires Init(s)
    ensures OneHolder(Run(s, events)) && CallersOk(Run(s, events)) && |Run(s, events).callers| == |s.callers|
  {
    hide Step, CallStep;
    if events != [] {
      var front, e := events[..|events| - 1], events[|events| - 1];
      RunKeepsSafety(s, front);
      StepKeepsOneHolder(Run(s, front), e);
      StepKeepsCallers(Run(s, front), e);
      StepCount(Run(s, front), e);
    }
  }

  /** The dispatches whose answer got lost. */
  ghost function LostDispatches(s: State, events: seq<Event>): nat {
    if events == [] then 0
    else
      var front, e := events[..|events| - 1], events[|events| - 1];
      LostDispatches(s, front) + if LosesDispatch(Run(s, front), e) then 1 else 0
  }

  predicate LosesDispatch(s: State, e: Event) {
    e.Call? && e.answer.Unanswered? && e.who < |s.callers| && s.callers[e.who].at.Dispatching?
  }

  lemma LostAnswerShape(s: State, e: Event)
    ensures var t := Step(s, e);
            && t.github == s.github && (t.smooth ==> s.smooth) && (LosesDispatch(s, e) ==> !t.smooth)
            && t.unacknowledged == s.unacknowledged + if LosesDispatch(s, e) then 1 else 0
  {
  }

  lemma {:induction false} UnacknowledgedAreLost(s: State, events: seq<Event>)
    requires Init(s)
    ensures Run(s, events).unacknowledged == LostDispatches(s, events)
  {
    hide Step, CallStep;
    if events != [] {
      UnacknowledgedAreLost(s, events[..|events| - 1]);
      LostAnswerShape(Run(s, events[..|events| - 1]), events[|events| - 1]);
    }
  }

  /** For every number of callers and every interleaving with failures and retries: at most one dispatch is
      acknowledged, so the page is refreshed at most once more than answers to a dispatch got lost. */
  lemma AtMostOneRefresh(s: State, events: seq<Event>)
    requires Init(s)
    ensures var t := Run(s, events); t.accepted <= 1 && t.unacknowledged == LostDispatches(s, events)
  {
    RunKeepsSafety(s, events);
    UnacknowledgedAreLost(s, events);
  }

  lemma RunOne(s: State, events: seq<Event>, e: Event)
    ensures Run(s, events + [e]) == Step(Run(s, events), e)
  {
    assert (events + [e])[..|events|] == events;
  }

  // ---- how many refreshes lost answers can cost

  /** The caller's dispatch is behind it. */
  predicate Spent(c: Caller) {
    c.at.Releasing? || c.at.Ended?
  }

  ghost function SpentCallers(s: State): set<nat> {
    set w: nat | w < |s.callers| && Spent(s.callers[w])
  }

  /** Each dispatch spends its caller, and without GitHub nobody gets that far. */
  ghost predicate OneEach(s: State) {
    s.accepted + s.unacknowledged <= |SpentCallers(s)|
    && (!s.github ==> s.accepted + s.unacknowledged == 0 && forall w | 0 <= w < |s.callers| :: !Holds(s.callers[w]))
  }

  lemma NextSpends(s: State, c: Caller, a: Answer)
    ensures var (t, d) := Next(s, c, a);
            var n, m := s.accepted + s.unacknowledged, t.accepted + t.unacknowledged;
            && (Spent(c) ==> Spent(d))
            && (m == n || (m == n + 1 && Holds(c) && !Spent(c) && Spent(d)))
            && (Holds(d) ==> Holds(c) || s.github)
  {
  }

  lemma CallSpends(s: State, w: nat, a: Answer)
    requires w < |s.callers|
    ensures var t := CallStep(s, w, a);
            var c, d := s.callers[w], t.callers[w];
            var n, m := s.accepted + s.unacknowledged, t.accepted + t.unacknowledged;
            && (Spent(c) ==> Spent(d))
            && (m == n || (m == n + 1 && Holds(c) && !Spent(c) && Spent(d)))
            && (Holds(d) ==> Holds(c) || s.github)
  {
    hide Next, Spent, Holds;
    NextShape(s, s.callers[w], a);
    NextSpends(s, s.callers[w], a);
  }

  lemma SpentGrow(s: State, t: State, w: nat)
    requires w < |s.callers| == |t.callers|
    requires forall x | 0 <= x < |s.callers| && x != w :: t.callers[x] == s.callers[x]
    requires Spent(s.callers[w]) ==> Spent(t.callers[w])
    ensures |SpentCallers(s)| <= |SpentCallers(t)|
    ensures !Spent(s.callers[w]) && Spent(t.callers[w]) ==> |SpentCallers(t)| == |SpentCallers(s)| + 1
  {
    hide Spent;
    if !Spent(s.callers[w]) && Spent(t.callers[w]) {
      assert SpentCallers(t) == SpentCallers(s) + {w};
    } else {
      SubsetSize(SpentCallers(s), SpentCallers(t));
    }
  }

  lemma CallKeepsOneEach(s: State, w: nat, a: Answer)
    requires OneEach(s) && w < |s.callers|
    ensures OneEach(CallStep(s, w, a))
  {
    hide CallStep, Holds, Spent, SpentCallers;
    CallShape(s, w, a);
    CallSpends(s, w, a);
    SpentGrow(s, CallStep(s, w, a), w);
  }

  lemma StepKeepsOneEach(s: State, e: Event)
    requires OneEach(s)
    ensures OneEach(Step(s, e))
  {
    hide CallStep, Holds, Spent;
    var t := Step(s, e);
    if e.Call? && e.who < |s.callers| {
      CallKeepsOneEach(s, e.who, e.answer);
    } else {
      forall w | 0 <= w < |s.callers|
        ensures Holds(t.callers[w]) == Holds(s.callers[w]) && Spent(t.callers[w]) == Spent(s.callers[w])
      {
        WorkersHoldNothing(s, e, w);
        WorkersSpendNothing(s, e, w);
      }
      assert SpentCallers(t) == SpentCallers(s);
    }
  }

  lemma WorkersSpendNothing(s: State, e: Event, w: nat)
    requires w < |s.callers| && !(e.Call? && e.who < |s.callers|)
    ensures w < |Step(s, e).callers| && Spent(Step(s, e).callers[w]) == Spent(s.callers[w])
  {
  }

  lemma {:induction false} RunKeepsOneEach(s: State, events: seq<Event>)
    requires Init(s)
    ensures OneEach(Run(s, events)) && Run(s, events).github == s.github && |Run(s, events).callers| == |s.callers|
  {
    hide Step, CallStep;
    if events != [] {
      var front, e := events[..|events| - 1], events[|events| - 1];
      RunKeepsOneEach(s, front);
      StepKeepsOneEach(Run(s, front), e);
      StepCount(Run(s, front), e);
      LostAnswerShape(Run(s, front), e);
    }
  }

  lemma {:induction false} Indices(a: set<nat>, n: nat)
    requires forall x | x in a :: x < n
    ensures |a| <= n
  {
    if n == 0 {
      assert a == {};
    } else {
      Indices(a - {n - 1}, n - 1);
      SubsetSize(a, (a - {n - 1}) + {n - 1});
    }
  }

  ghost predicate Reaches(s: State, t: State) {
    exists events :: Run(s, events) == t
  }

  lemma ReachesOn(s: State, t: State, e: Event)
    requires Reaches(s, t)
    ensures Reaches(s, Step(t, e))
  {
    hide Run, Step;
    var events :| Run(s, events) == t;
    RunOne(s, events, e);
  }

  /** Only caller w has moved, and it has not touched the marker or GitHub. */
  ghost predicate OnlyMoved(t: State, u: State, w: nat) {
    && |u.callers| == |t.callers| && w < |t.callers|
    && u.github == t.github && u.marker == t.marker && u.accepted == t.accepted && u.unacknowledged == t.unacknowledged
    && forall v | 0 <= v < |t.callers| && v != w :: u.callers[v] == t.callers[v]
  }

  /** A caller that has not begun can come to the create: a worker marks its whole plan first. */
  lemma ComesToCreate(s: State, t: State, w: nat) returns (u: State)
    requires Reaches(s, t) && w < |t.callers|
    requires t.callers[w].at == (if t.callers[w].worker then Working else Creating)
    ensures Reaches(s, u) && OnlyMoved(t, u, w) && u.callers[w].at == Creating
  {
    hide Reaches;
    u := t;
    var c := t.callers[w];
    if c.worker {
      for j := 0 to |c.plan|
        invariant Reaches(s, u) && OnlyMoved(t, u, w) && u.callers[w] == c
        invariant forall i | 0 <= i < j :: c.plan[i] in u.done
      {
        ReachesOn(s, u, Mark(w, c.plan[j]));
        u := Step(u, Mark(w, c.plan[j]));
      }
      ReachesOn(s, u, Finish(w));
      u := Step(u, Finish(w));
      ReachesOn(s, u, Call(w, No));
      u := Step(u, Call(w, No));
      for j := 0 to |c.plan|
        invariant Reaches(s, u) && OnlyMoved(t, u, w)
                  && u.callers[w] == c.(seen := u.callers[w].seen, at := Checking(j, 0))
        invariant forall i | 0 <= i < |c.plan| :: c.plan[i] in u.callers[w].seen
      {
        ReachesOn(s, u, Call(w, No));
        u := Step(u, Call(w, No));
      }
      ReachesOn(s, u, Call(w, No));
      u := Step(u, Call(w, No));
    }
  }

  /** From there it dispatches, loses the answer and deletes the marker. */
  lemma DispatchesUnheard(s: State, t: State, w: nat) returns (u: State)
    requires Reaches(s, t) && w < |t.callers| && t.callers[w].at == Creating && t.github && !t.marker
    ensures Reaches(s, u) && OnlyMoved(t, u.(unacknowledged := t.unacknowledged), w)
    ensures u.unacknowledged == t.unacknowledged + 1
  {
    hide Reaches;
    ReachesOn(s, t, Call(w, No));
    u := Step(t, Call(w, No));
    ReachesOn(s, u, Call(w, No));
    u := Step(u, Call(w, No));
    assert u.callers[w].at == Dispatching && OnlyMoved(t, u.(marker := false), w);
    ReachesOn(s, u, Call(w, Unanswered));
    u := Step(u, Call(w, Unanswered));
    ReachesOn(s, u, Call(w, No));
    u := Step(u, Call(w, No));
  }

  /** Lost answers can cost up to one refresh for every caller, and no more: n refreshes are possible exactly when
      there is a GitHub to dispatch and there are n callers. */
  lemma RefreshesPossible(s: State, n: nat)
    requires Init(s)
    ensures (exists events :: Run(s, events).accepted + Run(s, events).unacknowledged >= n)
            <==> n == 0 || (s.github && n <= |s.callers|)
  {
    hide Step, Run, Reaches;
    forall events | Run(s, events).accepted + Run(s, events).unacknowledged >= n > 0
      ensures s.github && n <= |s.callers|
    {
      RunKeepsOneEach(s, events);
      Indices(SpentCallers(Run(s, events)), |s.callers|);
    }
    if s.github && n <= |s.callers| {
      var t := s;
      ReachesSelf(s);
      for w := 0 to n
        invariant Reaches(s, t) && |t.callers| == |s.callers| && t.github && !t.marker && t.unacknowledged == w
        invariant forall v | w <= v < |s.callers| :: t.callers[v] == s.callers[v]
      {
        var u := ComesToCreate(s, t, w);
        t := DispatchesUnheard(s, u, w);
      }
      ReachedBy(s, t);
      var events :| Run(s, events) == t;
      assert Run(s, events).accepted + Run(s, events).unacknowledged >= n;
    } else if n == 0 {
      assert Run(s, []).accepted + Run(s, []).unacknowledged >= n;
    }
  }

  lemma ReachesSelf(s: State)
    ensures Reaches(s, s)
  {
    assert Run(s, []) == s;
  }

  lemma ReachedBy(s: State, t: State)
    requires Reaches(s, t)
    ensures exists events :: Run(s, events) == t
  {
  }

  /** A worker asks for the refresh only when every item of its plan has a done marker or was found absent. */
  lemma RefreshOnlyWhenAllAccounted(s: State, events: seq<Event>, w: nat)
    requires Init(s) && w < |s.callers|
    ensures var t := Run(s, events);
            && w < |t.callers|
            && var c := t.callers[w];
            c.worker && (Holds(c) || c.at == Ended(Dispatched)) ==>
              forall id | id in c.plan :: id in t.done || id in c.gone
  {
    RunKeepsSafety(s, events);
    var t := Run(s, events);
    assert CallerOk(t, t.callers[w]);
  }

  /** An item is found absent only while the vault does not hold it. */
  lemma GoneWasAbsent(s: State, e: Event, w: nat, id: int)
    requires w < |s.callers| && w < |Step(s, e).callers|
    requires id in Step(s, e).callers[w].gone && id !in s.callers[w].gone
    ensures id !in s.stored && id in s.callers[w].plan
  {
    hide CallStep;
    if e.Call? && e.who < |s.callers| {
      assert e.who == w by { CallShape(s, e.who, e.answer); }
      GoneShape(s, w, e.answer);
    }
  }

  lemma GoneShape(s: State, w: nat, a: Answer)
    requires w < |s.callers|
    ensures var c, d := s.callers[w], CallStep(s, w, a).callers[w];
            forall id | id in d.gone && id !in c.gone :: id !in s.stored && id in c.plan
  {
    hide Next;
    NextShape(s, s.callers[w], a);
    NextGone(s, s.callers[w], a);
  }

  lemma NextGone(s: State, c: Caller, a: Answer)
    ensures var (t, d) := Next(s, c, a);
            forall id | id in d.gone && id !in c.gone :: id !in s.stored && id in c.plan
  {
  }

  /** If all callers have ended, no call failed, no run was queued and every plan item got its marker, the page was
      refreshed exactly once: the last worker to list the markers saw them all. */
  lemma ExactlyOneRefresh(s: State, events: seq<Event>)
    requires Init(s) && s.github && exists w :: 0 <= w < |s.callers| && s.callers[w].worker
    requires var t := Run(s, events);
             && t.smooth
             && forall w | 0 <= w < |t.callers| :: t.callers[w].at.Ended? && forall j | 0 <= j < |t.callers[w].plan| ::
                t.callers[w].plan[j] in t.done
    ensures Run(s, events).accepted == 1 && Run(s, events).unacknowledged == 0
  {
    hide Step, CallStep, Run;
    var t := Run(s, events);
    RunKeepsInv(s, events);
    GithubStays(s, events);
    var w :| 0 <= w < |t.callers| && t.callers[w].worker && t.callers[w].seen == t.done;
    var c := t.callers[w];
    assert CallerOk(t, c);
    assert forall j | 0 <= j < |c.plan| :: c.plan[j] in t.done;
    assert c.at != Ended(LeftOver);
    assert c.at == Ended(c.at.result);
    match c.at.result {
      case Already =>
      case Dispatched =>
      case _ =>
    }
    assert forall v | 0 <= v < |t.callers| :: !Holds(t.callers[v]);
  }

  lemma {:induction false} GithubStays(s: State, events: seq<Event>)
    requires Init(s)
    ensures Run(s, events).github == s.github
    ensures Run(s, events).smooth ==> Run(s, events).unacknowledged == 0
  {
    hide Step, CallStep;
    if events != [] {
      GithubStays(s, events[..|events| - 1]);
      LostAnswerShape(Run(s, events[..|events| - 1]), events[|events| - 1]);
    }
  }

  const FIRST := Caller(false, [], Creating, {}, {})
  const START := State({}, {}, false, true, 0, 0, true, [FIRST, FIRST])

  /** Two planners: the first one's dispatch is taken, its answer lost and the marker deleted as after a refusal, so the
      second one dispatches again. */
  lemma LostAnswerRefreshesTwice()
    ensures Init(START) && exists events :: Run(START, events).accepted + Run(START, events).unacknowledged == 2
  {
    hide Run;
    RefreshesPossible(START, 2);
    var events :| Run(START, events).accepted + Run(START, events).unacknowledged >= 2;
    RunKeepsOneEach(START, events);
    Indices(SpentCallers(Run(START, events)), 2);
  }

  // ---- a refused refresh can be tried again

  /** Event e, in state s, makes nobody lose the marker: no create whose answer is lost, no release that fails, and no
      run of the workflow found waiting. */
  ghost predicate KeepsTrack(s: State, e: Event) {
    e.Call? && e.who < |s.callers| ==>
      var at := s.callers[e.who].at;
      && (at.Creating? ==> e.answer != Unanswered)
      && (at.Releasing? ==> e.answer != Fails)
      && (at.Asking? ==> e.answer != Yes)
  }

  ghost predicate KeepsTrackOf(s: State, events: seq<Event>) {
    forall n | 0 <= n < |events| :: KeepsTrack(Run(s, events[..n]), events[n])
  }

  /** The caller is between its create and its end. */
  ghost predicate SomeoneHoldsAt(s: State, w: int) {
    && 0 <= w < |s.callers|
    && (s.callers[w].at.Asking? || s.callers[w].at.Dispatching? || s.callers[w].at.Releasing?)
  }

  ghost predicate SomeoneHolds(s: State) {
    exists w :: SomeoneHoldsAt(s, w)
  }

  ghost predicate MarkerHasOwner(s: State) {
    s.marker ==> s.accepted == 1 || SomeoneHolds(s)
  }

  lemma NextOwner(s: State, c: Caller, a: Answer)
    requires (c.at.Creating? ==> a != Unanswered) && (c.at.Releasing? ==> a != Fails) && (c.at.Asking? ==> a != Yes)
    ensures var (t, d) := Next(s, c, a);
            && (t.marker && !s.marker ==> Holds(d))
            && (Holds(c) && !Holds(d) ==> !t.marker || t.accepted == s.accepted + 1)
            && (!(Holds(c) && !Holds(d)) ==> t.accepted == s.accepted)
  {
  }

  lemma CallKeepsOwner(s: State, w: nat, a: Answer)
    requires w < |s.callers| && OneHolder(s) && MarkerHasOwner(s) && KeepsTrack(s, Call(w, a))
    ensures MarkerHasOwner(CallStep(s, w, a))
  {
    hide Next;
    var c := s.callers[w];
    NextShape(s, c, a);
    NextOwner(s, c, a);
    var t := CallStep(s, w, a);
    if Holds(t.callers[w]) {
      assert SomeoneHoldsAt(t, w);
    } else if t.marker && !Holds(c) && s.accepted != 1 {
      var h :| SomeoneHoldsAt(s, h);
      assert t.callers[h] == s.callers[h] && SomeoneHoldsAt(t, h);
    }
  }

  lemma {:induction false} RunKeepsOwner(s: State, events: seq<Event>)
    requires Init(s) && KeepsTrackOf(s, events)
    ensures MarkerHasOwner(Run(s, events))
  {
    hide CallStep, Holds, OneHolder, CallersOk;
    if events != [] {
      var n := |events| - 1;
      var front, e := events[..n], events[n];
      forall k | 0 <= k < n ensures KeepsTrack(Run(s, front[..k]), front[k]) {
        assert front[..k] == events[..k];
        assert KeepsTrack(Run(s, events[..k]), events[k]);
      }
      RunKeepsOwner(s, front);
      RunKeepsSafety(s, front);
      assert KeepsTrack(Run(s, events[..n]), events[n]);
      var before := Run(s, front);
      if e.Call? && e.who < |before.callers| {
        CallKeepsOwner(before, e.who, e.answer);
      } else if SomeoneHolds(before) {
        var h :| SomeoneHoldsAt(before, h);
        WorkersHoldNothing(before, e, h);
        assert SomeoneHoldsAt(Step(before, e), h);
      }
    }
  }

  /** When no create's answer is lost, no release fails and no run is queued, the marker stands only for a refresh that
      GitHub took or a caller that is about to ask for one. */
  lemma MarkerHasAnOwner(s: State, events: seq<Event>)
    requires Init(s) && KeepsTrackOf(s, events)
    ensures Run(s, events).marker ==> Run(s, events).accepted == 1 || SomeoneHolds(Run(s, events))
  {
    RunKeepsOwner(s, events);
  }

  lemma Asks(s: State, t: State, w: nat) returns (u: State)
    requires Reaches(s, t) && w < |t.callers| && t.callers[w].at == Asking
    ensures Reaches(s, u) && u.accepted == t.accepted + 1
  {
    hide Reaches;
    ReachesOn(s, t, Call(w, No));
    u := Step(t, Call(w, No));
    ReachesOn(s, u, Call(w, No));
    u := Step(u, Call(w, No));
  }

  lemma Creates(s: State, t: State, w: nat) returns (u: State)
    requires Reaches(s, t) && w < |t.callers| && t.callers[w].at == Creating && t.github && !t.marker
    ensures Reaches(s, u) && u.accepted == t.accepted + 1
  {
    hide Reaches;
    ReachesOn(s, t, Call(w, No));
    u := Step(t, Call(w, No));
    assert u.callers[w].at == Asking;
    u := Asks(s, u, w);
  }

  lemma {:induction false} RunJoin(s: State, a: seq<Event>, b: seq<Event>)
    ensures Run(s, a + b) == Run(Run(s, a), b)
  {
    hide Step;
    if b == [] {
      assert a + b == a;
    } else {
      var n := |b| - 1;
      assert (a + b)[..|a + b| - 1] == a + b[..n] && (a + b)[|a + b| - 1] == b[n];
      RunJoin(s, a, b[..n]);
    }
  }

  lemma HolderFinishes(t: State, h: nat, w: nat) returns (u: State)
    requires h < |t.callers| && w < |t.callers| && Holds(t.callers[h]) && t.callers[w].at == Creating
    requires t.github && t.accepted == 0
    ensures Reaches(t, u) && u.accepted == 1
  {
    hide Reaches;
    ReachesSelf(t);
    if t.callers[h].at.Asking? {
      u := Asks(t, t, h);
    } else if t.callers[h].at.Dispatching? {
      ReachesOn(t, t, Call(h, No));
      u := Step(t, Call(h, No));
    } else {
      ReachesOn(t, t, Call(h, No));
      u := Step(t, Call(h, No));
      u := Creates(t, u, w);
    }
  }

  /** So a refusal never ends it: as long as no refresh was taken and some caller is still at its create, a refresh can
      follow, whoever holds the marker. */
  lemma RefreshCanFollow(s: State, events: seq<Event>, w: nat)
    requires Init(s) && s.github && KeepsTrackOf(s, events)
    requires w < |Run(s, events).callers| && Run(s, events).callers[w].at == Creating && Run(s, events).accepted == 0
    ensures exists more :: Run(s, events + more).accepted == 1
  {
    hide Run, Step, OneHolder, CallersOk, Reaches, Holds;
    var t := Run(s, events);
    RunKeepsOwner(s, events);
    GithubStays(s, events);
    ReachesSelf(t);
    var u: State;
    if t.marker {
      var h :| SomeoneHoldsAt(t, h);
      assert Holds(t.callers[h]) by { HoldsAt(t, h); }
      u := HolderFinishes(t, h, w);
    } else {
      u := Creates(t, t, w);
    }
    ReachedBy(t, u);
    var more :| Run(t, more) == u;
    RunJoin(s, events, more);
  }

  lemma HoldsAt(s: State, h: nat)
    requires SomeoneHoldsAt(s, h)
    ensures Holds(s.callers[h])
  {
  }

  // ---- every caller ends

  /** How many calls a caller has before it at most. */
  function Left(c: Caller): nat {
    match c.at
    case Working => 0
    case Listing => |c.plan| + 6
    case Checking(i, _) => if i <= |c.plan| then |c.plan| - i + 5 else 5
    case Creating => 4
    case Asking => 3
    case Dispatching => 2
    case Releasing => 1
    case Ended(_) => 0
  }

  lemma NextIsNearer(s: State, c: Caller, a: Answer)
    ensures var (t, d) := Next(s, c, a); !c.at.Working? && !c.at.Ended? ==> Left(d) < Left(c) && !d.at.Working?
  {
  }

  function CallsOf(events: seq<Event>, w: nat): nat {
    if events == [] then 0
    else
      var e := events[|events| - 1];
      CallsOf(events[..|events| - 1], w) + if e.Call? && e.who == w then 1 else 0
  }

  /** A caller that has begun ends within as many calls as its plan has items, and six. */
  lemma {:induction false} EveryCallerEnds(s: State, events: seq<Event>, w: nat)
    requires w < |s.callers| && !s.callers[w].at.Working? && CallsOf(events, w) >= |s.callers[w].plan| + 6
    requires s.callers[w].at.Checking? ==> s.callers[w].at.i <= |s.callers[w].plan|
    ensures w < |Run(s, events).callers| && Run(s, events).callers[w].at.Ended?
  {
    hide Run, Left;
    ComesNearer(s, events, w);
    LeftIsBounded(s.callers[w]);
    NoneLeft(Run(s, events).callers[w]);
  }

  lemma LeftIsBounded(c: Caller)
    requires !c.at.Working? && (c.at.Checking? ==> c.at.i <= |c.plan|)
    ensures Left(c) <= |c.plan| + 6
  {
  }

  lemma NoneLeft(c: Caller)
    ensures Left(c) == 0 && !c.at.Working? ==> c.at.Ended?
  {
  }

  lemma {:induction false} ComesNearer(s: State, events: seq<Event>, w: nat)
    requires w < |s.callers| && !s.callers[w].at.Working?
    ensures var t := Run(s, events);
            && |t.callers| == |s.callers| && !t.callers[w].at.Working?
            && (Left(t.callers[w]) == 0 || Left(t.callers[w]) + CallsOf(events, w) <= Left(s.callers[w]))
  {
    hide CallStep, Left;
    if events != [] {
      var front, e := events[..|events| - 1], events[|events| - 1];
      ComesNearer(s, front, w);
      StepCount(Run(s, front), e);
      StepIsNearer(Run(s, front), e, w);
    }
  }

  lemma StepIsNearer(s: State, e: Event, w: nat)
    requires w < |s.callers| && !s.callers[w].at.Working?
    ensures w < |Step(s, e).callers|
    ensures var c, d := s.callers[w], Step(s, e).callers[w];
            && !d.at.Working? && Left(d) <= Left(c)
            && (e.Call? && e.who == w ==> Left(c) == 0 || Left(d) < Left(c))
  {
    hide Next, Left;
    if e.Call? && e.who < |s.callers| {
      NextShape(s, s.callers[e.who], e.answer);
      NextIsNearer(s, s.callers[e.who], e.answer);
      LeftOfEnded(s.callers[e.who]);
    }
  }

  lemma LeftOfEnded(c: Caller)
    ensures c.at.Ended? ==> Left(c) == 0
  {
  }

  // ---- what the answers mean

  ghost predicate Lost(a: Answer) {
    a == Fails || a == Unanswered
  }

  /** Only caller w moves, to this place; the shared fields are these. */
  ghost predicate Becomes(s: State, t: State, w: nat, at: Control, marker: bool, accepted: nat, unacknowledged: nat) {
    && w < |s.callers| && t.callers == s.callers[w := s.callers[w].(at := at)] && t.github == s.github
    && t.marker == marker && t.accepted == accepted && t.unacknowledged == unacknowledged
  }

  /** What each call of a dispatch does. */
  lemma OneCall(s: State, w: nat, a: Answer)
    requires w < |s.callers|
    ensures var t := CallStep(s, w, a); var x, y := s.accepted, s.unacknowledged;
            match s.callers[w].at
            case Creating =>
              if !s.github then Becomes(s, t, w, Ended(NoGitHub), s.marker, x, y)
              else if Lost(a) then Becomes(s, t, w, Ended(Error), s.marker || a == Unanswered, x, y)
              else if s.marker then Becomes(s, t, w, Ended(Already), true, x, y)
              else Becomes(s, t, w, Asking, true, x, y)
            case Asking => Becomes(s, t, w, if Lost(a) then Releasing else if a == Yes then Ended(Queued)
                                   else Dispatching, s.marker, x, y)
            case Dispatching => Becomes(s, t, w, if Lost(a) then Releasing else Ended(Result.Dispatched), s.marker,
                x + (if Lost(a) then 0 else 1), y + (if a == Unanswered then 1 else 0))
            case Releasing => Becomes(s, t, w, Ended(Error), s.marker && a == Fails, x, y)
            case Ended(_) => t == s
            case _ => true
  {
    assert s.callers[w := s.callers[w]] == s.callers;
  }

  /** The four calls of a dispatch. */
  function Four(w: nat, create: Answer, waiting: Answer, dispatch: Answer, release: Answer): seq<Event> {
    [Call(w, create)] + [Call(w, waiting)] + [Call(w, dispatch)] + [Call(w, release)]
  }

  lemma RunFour(s: State, w: nat, a: Answer, b: Answer, c: Answer, d: Answer)
    requires w < |s.callers|
    ensures |CallStep(s, w, a).callers| == |CallStep(CallStep(s, w, a), w, b).callers| == |s.callers|
    ensures |CallStep(CallStep(CallStep(s, w, a), w, b), w, c).callers| == |s.callers|
    ensures Run(s, Four(w, a, b, c, d)) == CallStep(CallStep(CallStep(CallStep(s, w, a), w, b), w, c), w, d)
  {
    hide Run, CallStep;
    var es := [Call(w, a)];
    CallShape(s, w, a);
    CallShape(CallStep(s, w, a), w, b);
    CallShape(CallStep(CallStep(s, w, a), w, b), w, c);
    NoEvents(s);
    RunOne(s, [], Call(w, a));
    assert [] + [Call(w, a)] == es;
    RunOne(s, es, Call(w, b));
    RunOne(s, es + [Call(w, b)], Call(w, c));
    RunOne(s, es + [Call(w, b)] + [Call(w, c)], Call(w, d));
  }

  /** A dispatch that nobody interrupts, by the answers to its calls. It needs GitHub and a free marker; a waiting run
      counts as the refresh; after a failure at GitHub the next call gives the marker back, unless that fails too; a
      create whose answer is lost leaves it. */
  lemma DispatchAlone(s: State, w: nat, create: Answer, waiting: Answer, dispatch: Answer, release: Answer)
    requires w < |s.callers| && s.callers[w].at == Creating
    ensures var t := Run(s, Four(w, create, waiting, dispatch, release));
            var mine := s.github && !Lost(create) && !s.marker;
            var sent := mine && waiting == No;
            var given := (Lost(waiting) && dispatch != Fails) || (sent && Lost(dispatch) && release != Fails);
            Becomes(s, t, w,
                    Ended(if !s.github then NoGitHub else if Lost(create) then Error else if s.marker then Already
                          else if waiting == Yes then Queued else if sent && !Lost(dispatch) then Result.Dispatched
                          else Error),
                    s.marker || (s.github && create == Unanswered) || (mine && !given),
                    s.accepted + (if sent && !Lost(dispatch) then 1 else 0),
                    s.unacknowledged + (if sent && dispatch == Unanswered then 1 else 0))
  {
    hide Run, CallStep;
    RunFour(s, w, create, waiting, dispatch, release);
    var s1 := CallStep(s, w, create);
    OneCall(s, w, create);
    var s2 := CallStep(s1, w, waiting);
    OneCall(s1, w, waiting);
    var s3 := CallStep(s2, w, dispatch);
    OneCall(s2, w, dispatch);
    OneCall(s3, w, release);
  }

  lemma NoEvents(s: State)
    ensures Run(s, []) == s
  {
  }

  function Calls(w: nat, answers: seq<Answer>): seq<Event> {
    seq(|answers|, i requires 0 <= i < |answers| => Call(w, answers[i]))
  }

  /** The check of plan item i finds it missing a marker and still stored, or cannot tell. */
  ghost predicate StillOpen(s: State, c: Caller, answers: seq<Answer>, i: int) {
    0 <= i < |c.plan| && i < |answers| && c.plan[i] !in c.seen && (Lost(answers[i]) || c.plan[i] in s.stored)
  }

  lemma CheckCall(s: State, w: nat, a: Answer)
    requires w < |s.callers| && s.callers[w].at.Checking? && s.callers[w].at.i < |s.callers[w].plan|
    ensures var t, c := CallStep(s, w, a), s.callers[w];
            && t.stored == s.stored && w < |t.callers| && t.callers[w].plan == c.plan && t.callers[w].seen == c.seen
            && t.callers[w].at.Checking? && t.callers[w].at.i == c.at.i + 1
            && (t.callers[w].at.left > 0 <==>
                c.at.left > 0 || (c.plan[c.at.i] !in c.seen && (Lost(a) || c.plan[c.at.i] in s.stored)))
  {
  }

  lemma OneMoreOpen(s: State, c: Caller, front: seq<Answer>, a: Answer)
    requires |front| < |c.plan|
    ensures (exists i :: StillOpen(s, c, front + [a], i)) <==>
            (exists i :: StillOpen(s, c, front, i)) ||
            (c.plan[|front|] !in c.seen && (Lost(a) || c.plan[|front|] in s.stored))
  {
    hide Lost;
    var all, n := front + [a], |front|;
    assert forall k | 0 <= k < n :: all[k] == front[k];
    assert all[n] == a;
    if exists i :: StillOpen(s, c, front, i) {
      var i :| StillOpen(s, c, front, i);
      assert StillOpen(s, c, all, i);
    }
    if c.plan[n] !in c.seen && (Lost(a) || c.plan[n] in s.stored) { assert StillOpen(s, c, all, n); }
    if exists i :: StillOpen(s, c, all, i) {
      var i :| StillOpen(s, c, all, i);
      assert i < n ==> StillOpen(s, c, front, i);
    }
  }

  lemma {:induction false} CheckedSoFar(s: State, w: nat, answers: seq<Answer>)
    requires w < |s.callers| && s.callers[w].at == Checking(0, 0) && |answers| <= |s.callers[w].plan|
    ensures var t, c := Run(s, Calls(w, answers)), s.callers[w];
            && t.stored == s.stored && w < |t.callers| && t.callers[w].plan == c.plan && t.callers[w].seen == c.seen
            && t.callers[w].at.Checking? && t.callers[w].at.i == |answers|
            && (t.callers[w].at.left > 0 <==> exists i :: StillOpen(s, c, answers, i))
  {
    hide Run, CallStep, StillOpen;
    if answers == [] {
      NoEvents(s);
      assert Calls(w, answers) == [];
      NoneOpen(s, s.callers[w]);
    } else {
      var n := |answers| - 1;
      var front := answers[..n];
      CheckedSoFar(s, w, front);
      assert Calls(w, answers) == Calls(w, front) + [Call(w, answers[n])];
      RunOne(s, Calls(w, front), Call(w, answers[n]));
      CheckCall(Run(s, Calls(w, front)), w, answers[n]);
      assert answers == front + [answers[n]];
      OneMoreOpen(s, s.callers[w], front, answers[n]);
    }
  }

  lemma NoneOpen(s: State, c: Caller)
    ensures !exists i :: StillOpen(s, c, [], i)
  {
  }

  /** The check once the markers are listed. */
  lemma ChecksAll(s: State, w: nat, answers: seq<Answer>, last: Answer)
    requires w < |s.callers| && s.callers[w].at == Checking(0, 0) && |answers| == |s.callers[w].plan|
    ensures var t, c := Run(s, Calls(w, answers) + [Call(w, last)]), s.callers[w];
            && w < |t.callers|
            && t.callers[w].at ==
               if exists i :: 0 <= i < |c.plan| && c.plan[i] !in c.seen
                   && (Lost(answers[i]) || c.plan[i] in s.stored)
               then Ended(LeftOver) else Creating
  {
    hide Run;
    var c := s.callers[w];
    CheckedSoFar(s, w, answers);
    RunOne(s, Calls(w, answers), Call(w, last));
    if exists i :: StillOpen(s, c, answers, i) {
      var i :| StillOpen(s, c, answers, i);
      assert c.plan[i] !in c.seen && (Lost(answers[i]) || c.plan[i] in s.stored);
    }
    if exists i :: 0 <= i < |c.plan| && c.plan[i] !in c.seen && (Lost(answers[i]) || c.plan[i] in s.stored) {
      var i :| 0 <= i < |c.plan| && c.plan[i] !in c.seen && (Lost(answers[i]) || c.plan[i] in s.stored);
      assert StillOpen(s, c, answers, i);
    }
  }

  lemma ListingCall(s: State, w: nat, a: Answer)
    requires w < |s.callers| && s.callers[w].at == Listing
    ensures var t := CallStep(s, w, a);
            && t.stored == s.stored && t.done == s.done && |t.callers| == |s.callers|
            && t.callers[w] == if Lost(a) then s.callers[w].(at := Ended(Error))
                               else s.callers[w].(seen := s.done, at := Checking(0, 0))
  {
  }

  lemma {:induction false} EndedStays(s: State, w: nat, events: seq<Event>)
    requires w < |s.callers| && s.callers[w].at.Ended?
    ensures w < |Run(s, events).callers| && Run(s, events).callers[w] == s.callers[w]
  {
    hide Step;
    if events != [] {
      EndedStays(s, w, events[..|events| - 1]);
      EndedOnce(Run(s, events[..|events| - 1]), w, events[|events| - 1]);
    }
  }

  lemma EndedOnce(s: State, w: nat, e: Event)
    requires w < |s.callers| && s.callers[w].at.Ended?
    ensures w < |Step(s, e).callers| && Step(s, e).callers[w] == s.callers[w]
  {
    hide Next;
    if e.Call? && e.who < |s.callers| { NextShape(s, s.callers[e.who], e.answer); }
  }

  /** A worker's check of its plan that nobody interrupts: without the listing of the markers it ends in an error; else
      it goes on to the dispatch exactly when every item has a marker or was found absent; an item it could not look up
      counts as left. */
  lemma CheckAlone(s: State, w: nat, list: Answer, answers: seq<Answer>, last: Answer)
    requires w < |s.callers| && s.callers[w].at == Listing && |answers| == |s.callers[w].plan|
    ensures var t, plan := Run(s, [Call(w, list)] + (Calls(w, answers) + [Call(w, last)])), s.callers[w].plan;
            && w < |t.callers|
            && t.callers[w].at ==
               if Lost(list) then Ended(Error)
               else if exists i :: 0 <= i < |plan| && plan[i] !in s.done && (Lost(answers[i]) || plan[i] in s.stored)
               then Ended(LeftOver) else Creating
  {
    hide Run, CallStep, Lost;
    var rest := Calls(w, answers) + [Call(w, last)];
    RunJoin(s, [Call(w, list)], rest);
    NoEvents(s);
    RunOne(s, [], Call(w, list));
    assert [] + [Call(w, list)] == [Call(w, list)];
    var u := CallStep(s, w, list);
    ListingCall(s, w, list);
    assert Run(s, [Call(w, list)]) == u;
    if Lost(list) {
      EndedStays(u, w, rest);
    } else {
      ChecksAll(u, w, answers, last);
    }
  }

  /** The vault holds an item if and only if it was stored, at the start or since, and not deleted after that. */
  lemma {:induction false} StoredSince(s: State, events: seq<Event>, id: int)
    ensures id in Run(s, events).stored <==>
            (id in s.stored && Removed(id) !in events)
            || exists k :: 0 <= k < |events| && events[k] == Added(id) && Removed(id) !in events[k..]
  {
    if events != [] {
      var n := |events| - 1;
      var front, e := events[..n], events[n];
      StoredSince(s, front, id);
      StoredShape(Run(s, front), e);
      assert events == front + [e];
      StoredLater(front, e, id);
    }
  }

  lemma StoredLater(front: seq<Event>, e: Event, id: int)
    ensures (exists k :: 0 <= k <= |front| && (front + [e])[k] == Added(id) && Removed(id) !in (front + [e])[k..]) <==>
            e == Added(id)
            || (e != Removed(id) && exists k :: 0 <= k < |front| && front[k] == Added(id) && Removed(id) !in front[k..])
  {
    var n, events := |front|, front + [e];
    assert events[n..] == [e];
    if e == Added(id) { assert events[n] == Added(id) && Removed(id) !in events[n..]; }
    if k :| 0 <= k < n && front[k] == Added(id) && Removed(id) !in front[k..] {
      assert events[k] == front[k] && events[k..] == front[k..] + [e];
    }
    if k :| 0 <= k <= n && events[k] == Added(id) && Removed(id) !in events[k..] {
      assert k < n ==> events[k] == front[k] && events[k..] == front[k..] + [e];
    }
  }

  lemma StoredShape(s: State, e: Event)
    ensures Step(s, e).stored == if e.Removed? then s.stored - {e.id} else if e.Added? then s.stored + {e.id}
            else s.stored
  {
    hide CallStep;
    if e.Call? && e.who < |s.callers| { CallShape(s, e.who, e.answer); }
  }
}
