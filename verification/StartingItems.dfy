/** The purchases of one player before the horn, put together from the combat log and from the first inventory seen
    (main.go, flushPendingPurchases and the two places that fill its lists). Stamps are on the raw server clock. */
module StartingItems {
  import opened Sorting

  datatype Buy = Buy(t: real, item: string)

  /** A purchase logged before the hero was mapped to a player; counted: subtracted when the inventory was read. */
  datatype Waiting = Waiting(t: real, item: string, counted: bool)

  datatype Event =
    | Log(t: real, item: string)               // the combat log's purchase
    | MapHero                                  // the hero is mapped to the player
    | Sight(t: real, names: seq<string>)       // the hero's inventory is seen
    | Horn

  const DISPENSER := "item_ward_dispenser"

  datatype State = State(bought: seq<Buy>, waiting: seq<Waiting>, mapped: bool, horn: bool,
                         done: bool, startingT: real, left: map<string, nat>)

  const START := State([], [], false, false, false, 0.0, map[])

  function Left(left: map<string, nat>, item: string): nat {
    if item in left then left[item] else 0
  }

  /** StartingLeft[item]--. */
  function Less(left: map<string, nat>, item: string): map<string, nat>
    requires Left(left, item) > 0
  {
    left[item := left[item] - 1]
  }

  function LogStep(s: State, t: real, item: string): State {
    if item == DISPENSER then s
    else if s.mapped && !s.horn && t <= s.startingT && Left(s.left, item) > 0 then s.(left := Less(s.left, item))
    else if s.mapped then s.(bought := s.bought + [Buy(t, item)])
    else s.(waiting := s.waiting + [Waiting(t, item, false)])
  }

  /** How often the item is already on record when the inventory is read. */
  function Logged(s: State, item: string): nat {
    Copies(Items(s.bought), item) + if s.mapped then Copies(WaitingItems(s.waiting), item) else 0
  }

  function Items(bought: seq<Buy>): seq<string> {
    seq(|bought|, i requires 0 <= i < |bought| => bought[i].item)
  }

  function WaitingItems(waiting: seq<Waiting>): seq<string> {
    seq(|waiting|, i requires 0 <= i < |waiting| => waiting[i].item)
  }

  function Copies(names: seq<string>, item: string): nat {
    if names == [] then 0 else Copies(names[..|names| - 1], item) + if names[|names| - 1] == item then 1 else 0
  }

  function Real(names: seq<string>): seq<string> {
    if names == [] then []
    else
      var n := names[|names| - 1];
      Real(names[..|names| - 1]) + if n != "" && n != DISPENSER then [n] else []
  }

  function Mark(waiting: seq<Waiting>): seq<Waiting> {
    seq(|waiting|, i requires 0 <= i < |waiting| => waiting[i].(counted := true))
  }

  /** The names the log did not record, one by one: the k-th copy of an item is new when k exceeds the logged ones. */
  function Fresh(names: seq<string>, logged: string -> nat): seq<string> {
    if names == [] then []
    else
      var n := names[|names| - 1];
      Fresh(names[..|names| - 1], logged) + if Copies(names, n) > logged(n) then [n] else []
  }

  function Stamp(t: real, names: seq<string>): seq<Buy> {
    seq(|names|, i requires 0 <= i < |names| => Buy(t, names[i]))
  }

  ghost function SightStep(s: State, t: real, names: seq<string>): State {
    var real' := Real(names);
    if s.done || s.horn || real' == [] then s
    else
      var new' := Fresh(real', n => Logged(s, n));
      s.(done := true, startingT := t,
         waiting := if s.mapped then Mark(s.waiting) else s.waiting,
         bought := s.bought + Stamp(t, new'),
         left := map n | n in new' :: Copies(new', n))
  }

  function TimeOf(b: Buy): real {
    b.t
  }

  /** The first n waiting purchases handed to the player. */
  function Hand(s: State, n: nat): State
    requires n <= |s.waiting|
  {
    if n == 0 then s
    else
      var before := Hand(s, n - 1);
      var p := s.waiting[n - 1];
      if !p.counted && p.t <= s.startingT && Left(before.left,
          p.item) > 0 then before.(left := Less(before.left, p.item))
      else before.(bought := before.bought + [Buy(p.t, p.item)])
  }

  function FlushStep(s: State): State {
    if !s.mapped then s
    else
      var all := Hand(s, |s.waiting|);
      all.(waiting := [], bought := if |all.bought| > |s.bought| then StableSort(all.bought, TimeOf) else all.bought)
  }

  ghost function Step(s: State, e: Event): State {
    match e
    case Log(t, item) => LogStep(s, t, item)
    case MapHero => s.(mapped := true)
    case Sight(t, names) => SightStep(s, t, names)
    case Horn => s.(horn := true)
  }

  ghost function Run(s: State, events: seq<Event>): State {
    if events == [] then s else Step(Run(s, events[..|events| - 1]), events[|events| - 1])
  }

  // ---- counting copies

  lemma {:induction false} CopiesOfNone(names: seq<string>, item: string)
    ensures Copies(names, item) > 0 <==> item in names
  {
    if names != [] { CopiesOfNone(names[..|names| - 1], item); }
  }

  lemma CopiesAdd(names: seq<string>, n: string, item: string)
    ensures Copies(names + [n], item) == Copies(names, item) + if n == item then 1 else 0
  {
    assert (names + [n])[..|names|] == names;
  }

  lemma {:induction false} CopiesJoin(a: seq<string>, b: seq<string>, item: string)
    ensures Copies(a + b, item) == Copies(a, item) + Copies(b, item)
  {
    if b == [] {
      assert a + b == a;
    } else {
      var n := |b| - 1;
      CopiesJoin(a, b[..n], item);
      assert a + b == (a + b[..n]) + [b[n]];
      CopiesAdd(a + b[..n], b[n], item);
    }
  }

  lemma CopiesStep(names: seq<string>, i: nat)
    requires i < |names|
    ensures forall n :: Copies(names[..i + 1], n) == Copies(names[..i], n) + if n == names[i] then 1 else 0
  {
    assert names[..i + 1][..i] == names[..i];
  }

  lemma FreshStep(names: seq<string>, i: nat, logged: string -> nat)
    requires i < |names|
    ensures Fresh(names[..i + 1], logged) ==
            if Copies(names[..i], names[i]) >= logged(names[i]) then Fresh(names[..i], logged) + [names[i]]
            else Fresh(names[..i], logged)
  {
    assert names[..i + 1][..i] == names[..i];
  }

  lemma RealStep(names: seq<string>, i: nat)
    requires i < |names|
    ensures Real(names[..i + 1]) == Real(names[..i]) + if names[i] != "" && names[i] != DISPENSER then [names[i]]
            else []
  {
    assert names[..i + 1][..i] == names[..i];
  }

  lemma NewCopy(names: seq<string>, n: string, t: real)
    ensures Stamp(t, names + [n]) == Stamp(t, names) + [Buy(t, n)]
    ensures forall m :: Copies(names + [n], m) == Copies(names, m) + if m == n then 1 else 0
    ensures n !in names ==> Copies(names, n) == 0
  {
    forall m { CopiesAdd(names, n, m); }
    CopiesOfNone(names, n);
  }

  lemma Empty()
    ensures forall n :: Copies([], n) == 0
    ensures forall logged :: Fresh([], logged) == []
    ensures forall t :: Stamp(t, []) == []
    ensures Real([]) == []
  {
  }

  /** Of each item exactly the copies beyond the logged ones are new. */
  lemma {:induction false} FreshCopies(names: seq<string>, logged: string -> nat, item: string)
    ensures Copies(Fresh(names, logged), item) ==
            if Copies(names, item) > logged(item) then Copies(names, item) - logged(item) else 0
  {
    hide Copies, Fresh;
    Empty();
    if names != [] {
      var k := |names| - 1;
      FreshCopies(names[..k], logged, item);
      assert names[..k + 1] == names;
      CopiesStep(names, k);
      FreshStep(names, k, logged);
      CopiesAdd(Fresh(names[..k], logged), names[k], item);
    }
  }

  lemma HandStep(s: State, i: nat)
    requires i < |s.waiting|
    ensures var before, p := Hand(s, i), s.waiting[i];
            Hand(s, i + 1) ==
            if !p.counted && p.t <= s.startingT && Left(before.left,
                p.item) > 0 then before.(left := Less(before.left, p.item))
            else before.(bought := before.bought + [Buy(p.t, p.item)])
  {
  }

  lemma HandNone(s: State)
    ensures Hand(s, 0) == s
  {
  }

  // ---- the parser's state

  class Purchases {
    var bought: seq<Buy>              // ItemPurchases
    var waiting: seq<Waiting>         // PendingPurchases of his hero
    var mapped: bool
    var horn: bool
    var done: bool                    // StartingItemsDone
    var startingT: real
    var left: map<string, nat>        // StartingLeft

    constructor ()
      ensures Now() == START
    {
      bought, waiting, mapped, horn, done, startingT, left := [], [], false, false, false, 0.0, map[];
    }

    ghost function Now(): State
      reads this
    {
      State(bought, waiting, mapped, horn, done, startingT, left)
    }

    method Log(t: real, item: string)
      modifies this
      ensures Now() == Step(old(Now()), Event.Log(t, item))
    {
      if item == DISPENSER {
      } else if mapped && !horn && t <= startingT && Left(left, item) > 0 {
        left := Less(left, item);
      } else if mapped {
        bought := bought + [Buy(t, item)];
      } else {
        waiting := waiting + [Waiting(t, item, false)];
      }
    }

    /** What the log recorded so far, and the waiting purchases marked as counted. */
    method CountLogged() returns (logged: map<string, nat>)
      modifies this`waiting
      ensures waiting == if mapped then Mark(old(waiting)) else old(waiting)
      ensures forall n :: Left(logged, n) == Logged(old(Now()), n)
    {
      hide Copies;
      Empty();
      logged := map[];
      ghost var items := Items(bought);
      for i := 0 to |bought|
        invariant waiting == old(waiting)
        invariant forall n :: Left(logged, n) == Copies(items[..i], n)
      {
        CopiesStep(items, i);
        ghost var before := logged;
        logged := logged[bought[i].item := Left(logged, bought[i].item) + 1];
        assert forall n :: Left(logged, n) == Left(before, n) + if n == items[i] then 1 else 0;
      }
      assert items[..|bought|] == items;
      if mapped {
        logged := CountWaiting(logged);
      }
    }

    method CountWaiting(logged0: map<string, nat>) returns (logged: map<string, nat>)
      modifies this`waiting
      ensures waiting == Mark(old(waiting))
      ensures forall n :: Left(logged, n) == Left(logged0, n) + Copies(WaitingItems(old(waiting)), n)
    {
      hide Copies;
      Empty();
      logged := logged0;
      ghost var names := WaitingItems(waiting);
      for i := 0 to |waiting|
        invariant |waiting| == |old(waiting)|
        invariant forall j | 0 <= j < i :: waiting[j] == old(waiting)[j].(counted := true)
        invariant forall j | i <= j < |waiting| :: waiting[j] == old(waiting)[j]
        invariant forall n :: Left(logged, n) == Left(logged0, n) + Copies(names[..i], n)
      {
        CopiesStep(names, i);
        logged := logged[waiting[i].item := Left(logged, waiting[i].item) + 1];
        waiting := waiting[i := waiting[i].(counted := true)];
      }
      assert names[..|names|] == names;
    }

    /** The real names among those seen. */
    method Names(names: seq<string>) returns (seen: seq<string>)
      ensures seen == Real(names)
    {
      hide Real;
      Empty();
      seen := [];
      for i := 0 to |names|
        invariant seen == Real(names[..i])
      {
        RealStep(names, i);
        if names[i] != "" && names[i] != DISPENSER {
          seen := seen + [names[i]];
        }
      }
      assert names[..|names|] == names;
    }

    method Sight(t: real, names: seq<string>)
      requires !done ==> left == map[]
      modifies this
      ensures Now() == Step(old(Now()), Event.Sight(t, names))
    {
      hide Real, Fresh, Copies, Stamp, Logged, Mark;
      var seen := Names(names);
      if done || horn || seen == [] {
        return;
      }
      ghost var before := Now();
      var logged := CountLogged();
      done, startingT := true, t;
      AddFresh(t, seen, logged, n => Logged(before, n));
    }

    method AddFresh(t: real, seen: seq<string>, logged0: map<string, nat>, ghost count: string -> nat)
      requires left == map[]
      requires forall n :: Left(logged0, n) == count(n)
      modifies this`bought, this`left
      ensures bought == old(bought) + Stamp(t, Fresh(seen, count))
      ensures left == map n | n in Fresh(seen, count) :: Copies(Fresh(seen, count), n)
    {
      hide Fresh, Copies, Stamp;
      Empty();
      var logged := logged0;
      ghost var new': seq<string> := [];
      for k := 0 to |seen|
        invariant new' == Fresh(seen[..k], count)
        invariant bought == old(bought) + Stamp(t, new')
        invariant forall n :: n in left <==> n in new'
        invariant forall n | n in left :: left[n] == Copies(new', n)
        invariant forall n ::
                    Left(logged, n) == if count(n) > Copies(seen[..k], n) then count(n) - Copies(seen[..k], n) else 0
      {
        var n := seen[k];
        CopiesStep(seen, k);
        FreshStep(seen, k, count);
        if Left(logged, n) > 0 {
          logged := Less(logged, n);
        } else {
          bought := bought + [Buy(t, n)];
          NewCopy(new', n, t);
          left := left[n := Left(left, n) + 1];
          new' := new' + [n];
        }
      }
      assert seen[..|seen|] == seen;
    }

    /** The waiting purchases, handed to the player at the end. */
    method Flush()
      modifies this
      ensures Now() == FlushStep(old(Now()))
    {
      hide Hand;
      if waiting == [] || !mapped {
        if waiting == [] { HandNone(Now()); }
        return;
      }
      ghost var s := Now();
      var touched := false;
      HandNone(s);
      for i := 0 to |waiting|
        invariant Now() == Hand(s, i)
        invariant touched <==> |bought| > |s.bought|
        invariant |bought| >= |s.bought| && waiting == s.waiting && startingT == s.startingT
      {
        var p := waiting[i];
        HandStep(s, i);
        if !p.counted && p.t <= startingT && Left(left, p.item) > 0 {
          left := Less(left, p.item);
        } else {
          bought := bought + [Buy(p.t, p.item)];
          touched := true;
        }
      }
      waiting := [];
      if touched {
        bought := StableSort(bought, TimeOf);
      }
    }
  }

  // ---- the purchases of one item up to the sighting

  ghost function Recorded(bought: seq<Buy>, item: string, t0: real): nat {
    if bought == [] then 0
    else
      var b := bought[|bought| - 1];
      Recorded(bought[..|bought| - 1], item, t0) + if b.item == item && b.t <= t0 then 1 else 0
  }

  /** Waiting purchases stamped up to t0, the counted ones or the others. */
  ghost function Held(waiting: seq<Waiting>, item: string, t0: real, counted: bool): nat {
    if waiting == [] then 0
    else
      var p := waiting[|waiting| - 1];
      Held(waiting[..|waiting| - 1], item, t0, counted) + if p.item == item && p.t <= t0 && p.counted == counted then 1
          else 0
  }

  /** The purchases the log records, stamped up to t0 or after it. */
  ghost function Logs(events: seq<Event>, item: string, t0: real, upTo: bool): nat {
    if events == [] then 0
    else
      var e := events[|events| - 1];
      Logs(events[..|events| - 1], item, t0, upTo) + if e.Log? && e.item == item && (e.t <= t0) == upTo then 1 else 0
  }

  /** The purchases stamped up to t0 that the log delivers only after the horn, to a player who is mapped by then. */
  ghost function Late(s: State, events: seq<Event>, item: string, t0: real): nat {
    if events == [] then 0
    else
      var n := |events| - 1;
      var before := Run(s, events[..n]);
      Late(s, events[..n], item, t0)
      + if events[n].Log? && events[n].item == item && events[n].t <= t0 && before.mapped && before.horn then 1 else 0
  }

  /** How many purchases the player has at least, from the inventory: its copies, less the logged ones that bear a
      stamp after the sighting although they were delivered before it, plus the late ones. */
  ghost predicate Balanced(s: State, item: string, t0: real, logs: int, floor: int) {
    var certain := Recorded(s.bought, item, t0) + Held(s.waiting, item, t0, true);
    && s.done && s.startingT == t0
    && certain - Left(s.left, item) + Held(s.waiting, item, t0, false) == logs
    && floor <= certain
    && (Left(s.left, item) > 0 ==> certain == floor)
  }

  // Each step, on the counts.

  lemma RecordedAdd(bought: seq<Buy>, b: Buy, item: string, t0: real)
    ensures Recorded(bought + [b], item, t0) == Recorded(bought, item, t0) + if b.item == item && b.t <= t0 then 1
            else 0
  {
    assert (bought + [b])[..|bought|] == bought;
  }

  lemma HeldAdd(waiting: seq<Waiting>, p: Waiting, item: string, t0: real, counted: bool)
    ensures Held(waiting + [p], item, t0, counted) ==
            Held(waiting, item, t0, counted) + if p.item == item && p.t <= t0 && p.counted == counted then 1 else 0
  {
    assert (waiting + [p])[..|waiting|] == waiting;
  }

  /** Any step after the sighting keeps the balance. */
  lemma StepKeepsBalance(s: State, e: Event, item: string, t0: real, logs: int, floor: int)
    requires Balanced(s, item, t0, logs, floor) && item != DISPENSER
    ensures var isLog := e.Log? && e.item == item && e.t <= t0;
            Balanced(Step(s, e), item, t0,
                     logs + if isLog then 1 else 0,
                     floor + if isLog && s.mapped && s.horn then 1 else 0)
  {
    hide Recorded, Held;
    if e.Log? {
      RecordedAdd(s.bought, Buy(e.t, e.item), item, t0);
      HeldAdd(s.waiting, Waiting(e.t, e.item, false), item, t0, true);
      HeldAdd(s.waiting, Waiting(e.t, e.item, false), item, t0, false);
    }
  }

  lemma {:induction false} RunKeepsBalance(s: State, events: seq<Event>, item: string, t0: real, logs: int, floor: int)
    requires Balanced(s, item, t0, logs, floor) && item != DISPENSER
    ensures Balanced(Run(s, events), item, t0, logs + Logs(events, item, t0, true), floor + Late(s, events, item, t0))
  {
    hide Balanced, Step;
    if events != [] {
      var n := |events| - 1;
      RunKeepsBalance(s, events[..n], item, t0, logs, floor);
      StepKeepsBalance(Run(s, events[..n]), events[n], item, t0,
                       logs + Logs(events[..n], item, t0, true), floor + Late(s, events[..n], item, t0));
    }
  }

  /** The balance while the waiting purchases are handed over, n of them so far. */
  ghost predicate Handed(s: State, n: nat, item: string, t0: real, logs: int, floor: int)
    requires n <= |s.waiting|
  {
    var h := Hand(s, n);
    var certain := Recorded(h.bought, item, t0)
        + Held(s.waiting, item, t0, true) - Held(s.waiting[..n], item, t0, true);
    && certain - Left(h.left, item) + Held(s.waiting, item, t0, false) - Held(s.waiting[..n], item, t0, false) == logs
    && floor <= certain
    && (Left(h.left, item) > 0 ==> certain == floor)
  }

  lemma HandOne(s: State, item: string, t0: real, logs: int, floor: int, n: nat)
    requires n < |s.waiting| && s.startingT == t0 && Handed(s, n, item, t0, logs, floor)
    ensures Handed(s, n + 1, item, t0, logs, floor)
  {
    hide Recorded, Hand, Held;
    HandStep(s, n);
    var p := s.waiting[n];
    assert s.waiting[..n + 1] == s.waiting[..n] + [p];
    HeldAdd(s.waiting[..n], p, item, t0, true);
    HeldAdd(s.waiting[..n], p, item, t0, false);
    RecordedAdd(Hand(s, n).bought, Buy(p.t, p.item), item, t0);
  }

  /** Handing over the waiting purchases keeps the balance. */
  lemma {:induction false} HandKeepsBalance(s: State, item: string, t0: real, logs: int, floor: int, n: nat)
    requires Balanced(s, item, t0, logs, floor) && n <= |s.waiting|
    ensures Handed(s, n, item, t0, logs, floor)
  {
    hide Recorded, Hand, Held, Handed;
    if n == 0 {
      NoneHanded(s, item, t0, logs, floor);
    } else {
      HandKeepsBalance(s, item, t0, logs, floor, n - 1);
      HandOne(s, item, t0, logs, floor, n - 1);
    }
  }

  lemma NoneHanded(s: State, item: string, t0: real, logs: int, floor: int)
    requires Balanced(s, item, t0, logs, floor)
    ensures Handed(s, 0, item, t0, logs, floor)
  {
    assert s.waiting[..0] == [];
  }

  lemma {:induction false} SortedRecorded(bought: seq<Buy>, item: string, t0: real)
    ensures Recorded(StableSort(bought, TimeOf), item, t0) == Recorded(bought, item, t0)
  {
    if bought != [] {
      SortedRecorded(bought[1..], item, t0);
      InsertRecorded(bought[0], StableSort(bought[1..], TimeOf), item, t0);
      RecordedFirst(bought, item, t0);
    }
  }

  lemma {:induction false} RecordedFirst(bought: seq<Buy>, item: string, t0: real)
    requires bought != []
    ensures Recorded(bought, item, t0) ==
            Recorded(bought[1..], item, t0) + if bought[0].item == item && bought[0].t <= t0 then 1 else 0
  {
    var n := |bought| - 1;
    if n > 0 {
      RecordedFirst(bought[..n], item, t0);
      assert bought[..n][1..] == bought[1..][..n - 1];
    }
  }

  lemma {:induction false} InsertRecorded(b: Buy, bought: seq<Buy>, item: string, t0: real)
    ensures Recorded(Insert(b, bought, TimeOf), item, t0) ==
            Recorded(bought, item, t0) + if b.item == item && b.t <= t0 then 1 else 0
  {
    var all := Insert(b, bought, TimeOf);
    RecordedFirst(all, item, t0);
    if bought != [] && !(TimeOf(b) <= TimeOf(bought[0])) {
      InsertRecorded(b, bought[1..], item, t0);
      RecordedFirst(bought, item, t0);
      assert all[1..] == Insert(b, bought[1..], TimeOf);
    } else {
      assert all[1..] == bought;
    }
  }

  /** After the hand-over the player has the larger of the two numbers. */
  lemma FlushSettles(s: State, item: string, t0: real, logs: int, floor: int)
    requires Balanced(s, item, t0, logs, floor) && s.mapped
    ensures Recorded(FlushStep(s).bought, item, t0) == if logs >= floor then logs else floor
  {
    hide Recorded, Hand, StableSort, Held;
    var n := |s.waiting|;
    HandKeepsBalance(s, item, t0, logs, floor, n);
    assert s.waiting[..n] == s.waiting;
    SortedRecorded(Hand(s, n).bought, item, t0);
  }

  // ---- before the sighting, and the sighting

  /** Nothing but the log and the mapping: an empty inventory says nothing. */
  ghost predicate Quiet(events: seq<Event>) {
    forall e | e in events :: !e.Horn? && (e.Sight? ==> Real(e.names) == [])
  }

  ghost predicate Unsighted(s: State, item: string, t0: real, upTo: nat, after: nat) {
    && !s.done && !s.horn && s.left == map[] && (!s.mapped ==> s.bought == [])
    && Held(s.waiting, item, t0, true) == 0
    && Recorded(s.bought, item, t0) + Held(s.waiting, item, t0, false) == upTo
    && Copies(Items(s.bought), item) + Copies(WaitingItems(s.waiting), item) == upTo + after
  }

  lemma UnsightedStep(s: State, e: Event, item: string, t0: real, upTo: nat, after: nat)
    requires Unsighted(s, item, t0, upTo, after) && item != DISPENSER
    requires !e.Horn? && (e.Sight? ==> Real(e.names) == [])
    ensures Unsighted(Step(s, e), item, t0,
                      upTo + if e.Log? && e.item == item && e.t <= t0 then 1 else 0,
                      after + if e.Log? && e.item == item && e.t > t0 then 1 else 0)
  {
    hide Recorded, Held, Copies, Real;
    if e.Log? {
      var b, p := Buy(e.t, e.item), Waiting(e.t, e.item, false);
      RecordedAdd(s.bought, b, item, t0);
      HeldAdd(s.waiting, p, item, t0, true);
      HeldAdd(s.waiting, p, item, t0, false);
      assert Items(s.bought + [b]) == Items(s.bought) + [e.item];
      assert WaitingItems(s.waiting + [p]) == WaitingItems(s.waiting) + [e.item];
      CopiesAdd(Items(s.bought), e.item, item);
      CopiesAdd(WaitingItems(s.waiting), e.item, item);
    }
  }

  lemma {:induction false} QuietRun(events: seq<Event>, item: string, t0: real)
    requires Quiet(events) && item != DISPENSER
    ensures Unsighted(Run(START, events), item, t0, Logs(events, item, t0, true), Logs(events, item, t0, false))
  {
    hide Step, Real;
    if events == [] {
      assert Items([]) == [] && WaitingItems([]) == [];
    } else {
      var n := |events| - 1;
      assert forall e | e in events[..n] :: e in events;
      assert events[n] in events;
      QuietRun(events[..n], item, t0);
      UnsightedStep(Run(START, events[..n]), events[n], item, t0, Logs(events[..n], item, t0, true),
          Logs(events[..n], item, t0, false));
    }
  }

  lemma {:induction false} StampRecorded(bought: seq<Buy>, t0: real, names: seq<string>, item: string)
    ensures Recorded(bought + Stamp(t0, names), item, t0) == Recorded(bought, item, t0) + Copies(names, item)
  {
    if names == [] {
      assert bought + Stamp(t0, names) == bought;
    } else {
      var n := |names| - 1;
      StampRecorded(bought, t0, names[..n], item);
      assert bought + Stamp(t0, names) == (bought + Stamp(t0, names[..n])) + [Buy(t0, names[n])];
      RecordedAdd(bought + Stamp(t0, names[..n]), Buy(t0, names[n]), item, t0);
    }
  }

  lemma {:induction false} MarkHeld(waiting: seq<Waiting>, item: string, t0: real)
    ensures Held(Mark(waiting), item, t0, false) == 0
    ensures Held(Mark(waiting), item, t0, true) == Held(waiting, item, t0, true) + Held(waiting, item, t0, false)
  {
    if waiting != [] {
      var n := |waiting| - 1;
      MarkHeld(waiting[..n], item, t0);
      assert Mark(waiting)[..n] == Mark(waiting[..n]);
    }
  }

  lemma SightBalances(s: State, names: seq<string>, item: string, t0: real, upTo: nat, after: nat)
    requires Unsighted(s, item, t0, upTo, after) && Real(names) != []
    ensures Balanced(Step(s, Sight(t0, names)), item, t0, upTo, Copies(Real(names), item) - if s.mapped then after
            else 0)
  {
    hide Recorded, Held, Copies, Real, Mark, Stamp, Fresh, Items, WaitingItems;
    var count := n => Logged(s, n);
    var new' := Fresh(Real(names), count);
    FreshCopies(Real(names), count, item);
    StampRecorded(s.bought, t0, new', item);
    MarkHeld(s.waiting, item, t0);
    CopiesOfNone(new', item);
    if !s.mapped {
      NoItems(item, t0);
    }
    var left := map n | n in new' :: Copies(new', n);
    assert Left(left, item) == Copies(new', item);
    SightShape(s, names, t0, new', left);
  }

  lemma NoItems(item: string, t0: real)
    ensures Copies(Items([]), item) == 0 && Recorded([], item, t0) == 0
  {
    assert Items([]) == [];
  }

  lemma SightShape(s: State, names: seq<string>, t0: real, new': seq<string>, left: map<string, nat>)
    requires !s.done && !s.horn && Real(names) != []
    requires new' == Fresh(Real(names), n => Logged(s, n)) && left == map n | n in new' :: Copies(new', n)
    ensures Step(s, Sight(t0, names)) ==
            s.(done := true, startingT := t0, waiting := if s.mapped then Mark(s.waiting) else s.waiting,
               bought := s.bought + Stamp(t0, new'), left := left)
  {
    hide Copies, Real, Mark, Stamp, Fresh, Logged;
  }

  // ---- the whole pregame

  ghost function Seen(pre: seq<Event>, t0: real, names: seq<string>): State {
    Step(Run(START, pre), Sight(t0, names))
  }

  /** Events before the first inventory, the inventory, events after it, and the hand-over at the end. */
  ghost function Outcome(pre: seq<Event>, t0: real, names: seq<string>, post: seq<Event>): State {
    FlushStep(Run(Seen(pre, t0, names), post))
  }

  /** Purchases the sighting subtracted although they are stamped after it. */
  ghost function Early(pre: seq<Event>, item: string, t0: real): nat {
    if Run(START, pre).mapped then Logs(pre, item, t0, false) else 0
  }

  ghost function Max(a: int, b: int): int {
    if a >= b then a else b
  }

  /** However the log, the mapping, the sighting and the horn interleave: of an item the player ends up with as many
      purchases up to the sighting as the log has or the inventory shows, whichever is more, where the inventory's
      number is corrected by the purchases delivered out of the order of their stamps. */
  lemma RecordedUpToSighting(pre: seq<Event>, t0: real, names: seq<string>, post: seq<Event>, item: string)
    requires Quiet(pre) && Real(names) != [] && item != DISPENSER
    requires Run(Seen(pre, t0, names), post).mapped
    ensures Recorded(Outcome(pre, t0, names, post).bought, item, t0) ==
            Max(Logs(pre, item, t0, true) + Logs(post, item, t0, true),
                Copies(Real(names), item) - Early(pre, item, t0) + Late(Seen(pre, t0, names), post, item, t0))
  {
    hide Recorded, Copies, Real, Logs, Late, Step, FlushStep, Balanced, Unsighted;
    var s := Run(START, pre);
    QuietRun(pre, item, t0);
    SightBalances(s, names, item, t0, Logs(pre, item, t0, true), Logs(pre, item, t0, false));
    var logs, floor := Logs(pre, item, t0, true), Copies(Real(names), item) - Early(pre, item, t0);
    RunKeepsBalance(Seen(pre, t0, names), post, item, t0, logs, floor);
    FlushSettles(Run(Seen(pre, t0, names), post), item, t0, logs + Logs(post, item, t0, true),
                 floor + Late(Seen(pre, t0, names), post, item, t0));
  }

  /** The number is max(copies in the inventory, logged purchases) exactly when as many purchases came early as late,
      or the log has enough of them anyway; so whenever every purchase is delivered on the side of the sighting and
      of the horn that its stamp is on. */
  lemma ArrivalOrderDoesNotMatter(pre: seq<Event>, t0: real, names: seq<string>, post: seq<Event>, item: string)
    requires Quiet(pre) && Real(names) != [] && item != DISPENSER
    requires Run(Seen(pre, t0, names), post).mapped
    ensures var copies := Copies(Real(names), item);
            var logged := Logs(pre, item, t0, true) + Logs(post, item, t0, true);
            var early, late := Early(pre, item, t0), Late(Seen(pre, t0, names), post, item, t0);
            Recorded(Outcome(pre, t0, names, post).bought, item, t0) == Max(copies, logged) <==>
            early == late || (copies <= logged && copies - early + late <= logged)
  {
    hide Recorded, Copies, Real, Logs, Late, Step, FlushStep, Early, Outcome, Seen;
    RecordedUpToSighting(pre, t0, names, post, item);
  }

  /** A purchase logged before the sighting with a later stamp takes a copy out of the starting items: none is left. */
  lemma EarlyPurchaseHidesACopy()
    ensures var pre := [MapHero, Log(5.0, "item_tango")];
            Recorded(Outcome(pre, 4.0, ["item_tango"], []).bought, "item_tango", 4.0) == 0
  {
    hide FlushStep, Copies, Real, Recorded, SightStep;
    var pre := [MapHero, Log(5.0, "item_tango")];
    assert pre[..1] == [MapHero] && [MapHero][..0] == [];
    assert Run(START, [MapHero]) == START.(mapped := true);
    OneName("item_tango");
    assert Quiet(pre);
    var seen := Seen(pre, 4.0, ["item_tango"]);
    assert Run(seen, []) == seen && Late(seen, [], "item_tango", 4.0) == 0;
    SightKeepsMapping(Run(START, pre), 4.0, ["item_tango"]);
    RecordedUpToSighting(pre, 4.0, ["item_tango"], [], "item_tango");
  }

  lemma OneName(n: string)
    requires n != "" && n != DISPENSER
    ensures Real([n]) == [n] && Copies([n], n) == 1
  {
    assert [n][..0] == [];
  }

  lemma SightKeepsMapping(s: State, t0: real, names: seq<string>)
    ensures SightStep(s, t0, names).mapped == s.mapped
  {
  }

  // ---- the purchases after the sighting, and the order of them all

  /** The log's purchases of the item with exactly this stamp. */
  ghost function LogsAt(events: seq<Event>, item: string, t: real): nat {
    if events == [] then 0
    else
      var n := |events| - 1;
      LogsAt(events[..n], item, t) + if events[n] == Log(t, item) then 1 else 0
  }

  /** The player's purchases of the item with this stamp: recorded, or waiting. */
  ghost function Count(bought: seq<Buy>, x: Buy): nat {
    if bought == [] then 0
    else
      var n := |bought| - 1;
      Count(bought[..n], x) + if bought[n] == x then 1 else 0
  }

  ghost function Queue(waiting: seq<Waiting>, x: Buy): nat {
    if waiting == [] then 0
    else
      var n := |waiting| - 1;
      Queue(waiting[..n], x) + if Buy(waiting[n].t, waiting[n].item) == x then 1 else 0
  }

  lemma CountAdd(bought: seq<Buy>, b: Buy, x: Buy)
    ensures Count(bought + [b], x) == Count(bought, x) + if b == x then 1 else 0
  {
    assert (bought + [b])[..|bought|] == bought;
  }

  lemma QueueAdd(waiting: seq<Waiting>, p: Waiting, x: Buy)
    ensures Queue(waiting + [p], x) == Queue(waiting, x) + if Buy(p.t, p.item) == x then 1 else 0
  {
    assert (waiting + [p])[..|waiting|] == waiting;
  }

  lemma {:induction false} CountStamped(bought: seq<Buy>, t: real, names: seq<string>, x: Buy)
    requires x.t != t
    ensures Count(bought + Stamp(t, names), x) == Count(bought, x)
  {
    if names == [] {
      assert bought + Stamp(t, names) == bought;
    } else {
      var n := |names| - 1;
      CountStamped(bought, t, names[..n], x);
      assert bought + Stamp(t, names) == (bought + Stamp(t, names[..n])) + [Buy(t, names[n])];
      CountAdd(bought + Stamp(t, names[..n]), Buy(t, names[n]), x);
    }
  }

  lemma {:induction false} QueueMarked(waiting: seq<Waiting>, x: Buy)
    ensures Queue(Mark(waiting), x) == Queue(waiting, x)
  {
    if waiting != [] {
      var n := |waiting| - 1;
      QueueMarked(waiting[..n], x);
      assert Mark(waiting)[..n] == Mark(waiting[..n]);
    }
  }

  /** A purchase stamped after the sighting, if there has been one. */
  ghost predicate After(s: State, x: Buy) {
    s.done ==> s.startingT < x.t
  }

  lemma StepKeepsCount(s: State, e: Event, x: Buy)
    requires x.item != DISPENSER && After(s, x) && (s.done || s.left == map[])
    requires e.Sight? ==> s.done || Real(e.names) == [] || e.t < x.t
    ensures var t := Step(s, e);
            && (s.done ==> t.done) && Count(t.bought, x) + Queue(t.waiting, x) ==
               Count(s.bought, x) + Queue(s.waiting, x) + (if e == Log(x.t, x.item) then 1 else 0)
            && After(t, x) && (t.done || t.left == map[])
  {
    hide Count, Queue, Real, Fresh, Copies, Stamp, Mark, Logged;
    match e {
      case Log(t, item) =>
        CountAdd(s.bought, Buy(t, item), x);
        QueueAdd(s.waiting, Waiting(t, item, false), x);
      case MapHero =>
      case Sight(t, names) =>
        var new' := Fresh(Real(names), n => Logged(s, n));
        QueueMarked(s.waiting, x);
        if !s.done && !s.horn && Real(names) != [] {
          CountStamped(s.bought, t, new', x);
          SightShape(s, names, t, new', map n | n in new' :: Copies(new', n));
        }
      case Horn =>
    }
  }

  lemma {:induction false} RunKeepsCount(s: State, events: seq<Event>, x: Buy)
    requires x.item != DISPENSER && After(s, x) && (s.done || s.left == map[])
    requires s.done || forall e | e in events && e.Sight? :: Real(e.names) == []
    ensures var t := Run(s, events);
            && (s.done ==> t.done) && Count(t.bought, x) + Queue(t.waiting, x) ==
               Count(s.bought, x) + Queue(s.waiting, x) + LogsAt(events, x.item, x.t)
            && After(t, x) && (t.done || t.left == map[])
  {
    hide Step, Count, Queue, After, Real;
    if events != [] {
      var n := |events| - 1;
      assert forall e | e in events[..n] :: e in events;
      assert events[n] in events;
      RunKeepsCount(s, events[..n], x);
      StepKeepsCount(Run(s, events[..n]), events[n], x);
    }
  }

  lemma {:induction false} HandKeepsCount(s: State, x: Buy, n: nat)
    requires After(s, x) && (s.done || s.left == map[]) && n <= |s.waiting|
    ensures var h := Hand(s, n);
            && Count(h.bought, x) == Count(s.bought, x) + Queue(s.waiting[..n], x)
            && h.startingT == s.startingT && h.done == s.done && (s.done || h.left == map[])
  {
    hide Count, Queue;
    if n == 0 {
      assert s.waiting[..0] == [];
      NoneCounted(x);
    } else {
      HandKeepsCount(s, x, n - 1);
      var p := s.waiting[n - 1];
      assert s.waiting[..n] == s.waiting[..n - 1] + [p];
      QueueAdd(s.waiting[..n - 1], p, x);
      CountAdd(Hand(s, n - 1).bought, Buy(p.t, p.item), x);
      HandStep(s, n - 1);
    }
  }

  lemma NoneCounted(x: Buy)
    ensures Count([], x) == 0 && Queue([], x) == 0
  {
  }

  lemma {:induction false} CountIsMultiset(bought: seq<Buy>, x: Buy)
    ensures Count(bought, x) == multiset(bought)[x]
  {
    if bought != [] {
      var n := |bought| - 1;
      CountIsMultiset(bought[..n], x);
      assert bought == bought[..n] + [bought[n]];
    }
  }

  lemma FlushKeepsCount(s: State, x: Buy)
    requires After(s, x) && (s.done || s.left == map[]) && s.mapped
    ensures Count(FlushStep(s).bought, x) == Count(s.bought, x) + Queue(s.waiting, x)
  {
    hide Count, Queue, Hand, StableSort;
    HandKeepsCount(s, x, |s.waiting|);
    assert s.waiting[..|s.waiting|] == s.waiting;
    var all := Hand(s, |s.waiting|).bought;
    StableSortPermutes(all, TimeOf);
    CountIsMultiset(all, x);
    CountIsMultiset(StableSort(all, TimeOf), x);
  }

  /** What the log stamps after the sighting is recorded as the log has it, stamp by stamp, however often. */
  lemma LaterPurchasesAreTheLogs(pre: seq<Event>, t0: real, names: seq<string>, post: seq<Event>, x: Buy)
    requires Quiet(pre) && Real(names) != [] && x.item != DISPENSER && x.t > t0
    requires Run(Seen(pre, t0, names), post).mapped
    ensures multiset(Outcome(pre, t0, names, post).bought)[x] == LogsAt(pre, x.item, x.t) + LogsAt(post, x.item, x.t)
  {
    hide Step, Count, Queue, FlushStep, LogsAt, Real;
    NoneCounted(x);
    RunKeepsCount(START, pre, x);
    var before := Run(START, pre);
    StepKeepsCount(before, Sight(t0, names), x);
    var seen := Seen(pre, t0, names);
    IsSeen(pre, t0, names, x.item);
    RunKeepsCount(seen, post, x);
    var end := Run(seen, post);
    FlushKeepsCount(end, x);
    CountIsMultiset(Outcome(pre, t0, names, post).bought, x);
  }

  lemma IsSeen(pre: seq<Event>, t0: real, names: seq<string>, item: string)
    requires Quiet(pre) && Real(names) != [] && item != DISPENSER
    ensures Seen(pre, t0, names).done
  {
    hide Step, Real, Recorded, Held, Copies, Logs, Stamp, Fresh, Mark;
    QuietRun(pre, item, t0);
    var s := Run(START, pre);
    var new' := Fresh(Real(names), n => Logged(s, n));
    SightShape(s, names, t0, new', map n | n in new' :: Copies(new', n));
  }

  /** Without a hero nothing is handed over. Else nothing waits any more, and if a purchase was added all of them are in
      the order of their stamps. */
  lemma HandOverInOrder(s: State)
    ensures var t := FlushStep(s);
            if !s.mapped then t.bought == s.bought && t.waiting == s.waiting && t.left == s.left
            else t.waiting == [] && (|t.bought| > |s.bought| ==>
                                       forall i, j | 0 <= i < j < |t.bought| :: t.bought[i].t <= t.bought[j].t)
  {
    hide Hand, StableSort;
    var all := Hand(s, |s.waiting|).bought;
    ghost var any := (a: Buy, b: Buy) => true;
    StableSortSpec(all, TimeOf, any);
  }

  /** The ward dispenser is never bought: it is what two ward items look like together. */
  ghost predicate NoDispenser(s: State) {
    (forall b | b in s.bought :: b.item != DISPENSER) && (forall p | p in s.waiting :: p.item != DISPENSER)
  }

  lemma {:induction false} RealNames(names: seq<string>)
    ensures forall n :: n in Real(names) <==> n in names && n != "" && n != DISPENSER
  {
    if names != [] {
      var k := |names| - 1;
      RealNames(names[..k]);
      assert names == names[..k] + [names[k]];
    }
  }

  lemma {:induction false} FreshNames(names: seq<string>, logged: string -> nat)
    ensures forall n | n in Fresh(names, logged) :: n in names
  {
    if names != [] {
      FreshNames(names[..|names| - 1], logged);
      assert forall n | n in names[..|names| - 1] :: n in names;
    }
  }

  lemma StepKeepsDispenserOut(s: State, e: Event)
    requires NoDispenser(s)
    ensures NoDispenser(Step(s, e))
  {
    hide Real, Fresh, Copies, Logged, Mark, Stamp;
    if e.Sight? && !s.done && !s.horn && Real(e.names) != [] {
      RealNames(e.names);
      var new' := Fresh(Real(e.names), n => Logged(s, n));
      FreshNames(Real(e.names), n => Logged(s, n));
      SightShape(s, e.names, e.t, new', map n | n in new' :: Copies(new', n));
      StampedItems(e.t, new');
      MarkedItems(s.waiting);
    }
  }

  lemma StampedItems(t: real, names: seq<string>)
    ensures forall b | b in Stamp(t, names) :: b.item in names
  {
  }

  lemma MarkedItems(waiting: seq<Waiting>)
    ensures forall p | p in Mark(waiting) :: exists q :: q in waiting && q.item == p.item
  {
    forall p | p in Mark(waiting) ensures exists q :: q in waiting && q.item == p.item {
      var i :| 0 <= i < |Mark(waiting)| && Mark(waiting)[i] == p;
      assert waiting[i] in waiting && waiting[i].item == p.item;
    }
  }

  lemma {:induction false} RunKeepsDispenserOut(s: State, events: seq<Event>)
    requires NoDispenser(s)
    ensures NoDispenser(Run(s, events))
  {
    hide Step, NoDispenser;
    if events != [] {
      RunKeepsDispenserOut(s, events[..|events| - 1]);
      StepKeepsDispenserOut(Run(s, events[..|events| - 1]), events[|events| - 1]);
    }
  }

  lemma {:induction false} HandKeepsDispenserOut(s: State, n: nat)
    requires NoDispenser(s) && n <= |s.waiting|
    ensures forall b | b in Hand(s, n).bought :: b.item != DISPENSER
  {
    if n > 0 {
      HandKeepsDispenserOut(s, n - 1);
      assert s.waiting[n - 1] in s.waiting;
    }
  }

  /** Over every run no ward dispenser is recorded, from the log or from the inventory. */
  lemma DispenserIsNeverBought(events: seq<Event>)
    ensures forall b | b in FlushStep(Run(START, events)).bought :: b.item != DISPENSER
  {
    hide Hand, StableSort, Step;
    RunKeepsDispenserOut(START, events);
    var s := Run(START, events);
    HandKeepsDispenserOut(s, |s.waiting|);
    ghost var any := (a: Buy, b: Buy) => true;
    StableSortSpec(Hand(s, |s.waiting|).bought, TimeOf, any);
  }
}
