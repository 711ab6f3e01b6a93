/** Stamps recorded before the horn is known, parked below every other number and moved onto the game clock once it is
    (main.go, ActualGameSeconds and rebasePreHorn). */
module PreHorn {
  import opened Wrappers

  const EPOCH := 1000000.0
  const BAND := -900000.0

  /** A number in the parser's state: a stamp taken from the raw clock, or anything else. */
  datatype Item = Stamp(raw: real) | Value(v: real)

  datatype Event = Keep(item: Item) | Horn(g: real)

  function GameSeconds(start: real, raw: real): real {
    if start > 0.0 then raw - start else raw - EPOCH
  }

  function Stored(start: real, item: Item): real {
    match item
    case Stamp(raw) => GameSeconds(start, raw)
    case Value(v) => v
  }

  function Moved(x: real, delta: real): real {
    if x <= BAND then x + delta else x
  }

  function Sweep(xs: seq<real>, delta: real): seq<real> {
    seq(|xs|, i requires 0 <= i < |xs| => Moved(xs[i], delta))
  }

  datatype State = State(start: real, xs: seq<real>)

  function Step(s: State, e: Event): State {
    match e
    case Keep(item) => s.(xs := s.xs + [Stored(s.start, item)])
    case Horn(g) =>
      if g <= 0.0 then s
      else if s.start == 0.0 then State(g, Sweep(s.xs, EPOCH - g))
      else s.(start := g)
  }

  function Run(events: seq<Event>): State {
    if events == [] then State(0.0, []) else Step(Run(events[..|events| - 1]), events[|events| - 1])
  }

  /** What is written out. */
  function Output(s: State): seq<real> {
    if s.start <= 0.0 then Sweep(s.xs, EPOCH) else s.xs
  }

  /** The parser's clock and the numbers it keeps. */
  class Clock {
    var start: real              // GameStartTime, 0.0 while it is unknown
    var xs: seq<real>

    constructor ()
      ensures Now() == State(0.0, [])
    {
      start, xs := 0.0, [];
    }

    ghost function Now(): State
      reads this
    {
      State(start, xs)
    }

    method Keep(item: Item)
      modifies this
      ensures Now() == Step(old(Now()), Event.Keep(item))
    {
      xs := xs + [match item case Stamp(raw) => GameSeconds(start, raw) case Value(v) => v];
    }

    /** Every number inside the band, once; n counts them. */
    method Rebase(gameStart: real) returns (n: nat)
      modifies this`xs
      ensures xs == Sweep(old(xs), EPOCH - gameStart)
      ensures n == Parked(old(xs)) == |set i | 0 <= i < |old(xs)| && old(xs)[i] <= -900000.0|
    {
      n := 0;
      for i := 0 to |xs|
        invariant |xs| == |old(xs)| && n == Parked(old(xs)[..i])
        invariant forall k | 0 <= k < i :: xs[k] == Moved(old(xs)[k], EPOCH - gameStart)
        invariant forall k | i <= k < |xs| :: xs[k] == old(xs)[k]
      {
        assert old(xs)[..i + 1][..i] == old(xs)[..i];
        if xs[i] <= BAND {
          xs := xs[i := xs[i] + (EPOCH - gameStart)];
          n := n + 1;
        }
      }
      assert old(xs)[..|xs|] == old(xs);
      ParkedMeans(old(xs));
    }

    method HearHorn(g: real)
      modifies this
      ensures Now() == Step(old(Now()), Horn(g))
    {
      if g > 0.0 {
        if start == 0.0 {
          start := g;
          var _ := Rebase(g);
        } else {
          start := g;
        }
      }
    }

    method Finish() returns (out: seq<real>)
      modifies this
      ensures out == Output(old(Now()))
    {
      if start <= 0.0 {
        var _ := Rebase(0.0);
      }
      out := xs;
    }
  }

  function Parked(xs: seq<real>): nat {
    if xs == [] then 0 else Parked(xs[..|xs| - 1]) + if xs[|xs| - 1] <= BAND then 1 else 0
  }

  /** How many numbers are inside the band. */
  lemma {:induction false} ParkedMeans(xs: seq<real>)
    ensures Parked(xs) == |set i | 0 <= i < |xs| && xs[i] <= -900000.0|
  {
    if xs != [] {
      var n := |xs| - 1;
      ParkedMeans(xs[..n]);
      var before := set i | 0 <= i < n && xs[..n][i] <= -900000.0;
      assert (set i | 0 <= i < |xs| && xs[i] <= -900000.0) == before + if xs[n] <= -900000.0 then {n} else {};
    }
  }

  // ---- where every number ends

  /** The first horn heard, and the last. */
  ghost function FirstHorn(events: seq<Event>): Option<real> {
    if events == [] then None
    else
      var before := FirstHorn(events[..|events| - 1]);
      var e := events[|events| - 1];
      if before.Some? then before else if e.Horn? && e.g > 0.0 then Some(e.g) else None
  }

  ghost function LastHorn(events: seq<Event>): real {
    if events == [] then 0.0
    else
      var e := events[|events| - 1];
      if e.Horn? && e.g > 0.0 then e.g else LastHorn(events[..|events| - 1])
  }

  /** Numbers that are no stamps stay above the band, and the raw clock below a hundred thousand. */
  ghost predicate Sane(events: seq<Event>) {
    forall e | e in events && e.Keep? :: if e.item.Stamp? then e.item.raw <= 100000.0 else e.item.v > BAND
  }

  /** The items kept, each with the horn known when it was: 0.0 for none. */
  ghost function Kept(events: seq<Event>): seq<(Item, real)> {
    if events == [] then []
    else
      var before := events[..|events| - 1];
      var e := events[|events| - 1];
      if e.Keep? then Kept(before) + [(e.item, LastHorn(before))] else Kept(before)
  }

  /** Where an item ends that was kept when horn was known, first being the first horn heard. */
  ghost function Ends(item: Item, horn: real, first: Option<real>): real {
    match item
    case Value(v) => v
    case Stamp(raw) => if horn > 0.0 then raw - horn else if first.Some? then raw - first.value else raw - EPOCH
  }

  lemma {:induction false} EndsOf(events: seq<Event>)
    requires Sane(events)
    ensures var s := Run(events);
            && s.start == LastHorn(events) && (s.start == 0.0 <==> FirstHorn(events) == None) && s.start >= 0.0
            && (FirstHorn(events).Some? ==> FirstHorn(events).value > 0.0)
            && |s.xs| == |Kept(events)|
            && forall i | 0 <= i < |s.xs| ::
                 && s.xs[i] == Ends(Kept(events)[i].0, Kept(events)[i].1, FirstHorn(events))
                 && Kept(events)[i].1 >= 0.0 && (FirstHorn(events) == None ==> Kept(events)[i].1 == 0.0)
                 && (Kept(events)[i].0.Stamp? ==> Kept(events)[i].0.raw <= 100000.0)
                 && (Kept(events)[i].0.Value? ==> Kept(events)[i].0.v > BAND)
  {
    if events != [] {
      var n := |events| - 1;
      assert forall e | e in events[..n] :: e in events;
      assert events[n] in events;
      EndsOf(events[..n]);
    }
  }

  /** When the horn is heard at least once, every stamp ends as its raw time less the horn known when it was taken, or
      less the first one heard when none was known; when it never is, every stamp ends as its raw time. Everything
      else ends as it was. */
  lemma EveryStampEndsOnce(events: seq<Event>)
    requires Sane(events)
    ensures |Output(Run(events))| == |Kept(events)|
    ensures forall i | 0 <= i < |Kept(events)| ::
              var (item, horn) := Kept(events)[i];
              Output(Run(events))[i] == match item
                                        case Value(v) => v
                                        case Stamp(raw) => if horn > 0.0 then raw - horn
                                                           else if FirstHorn(events).Some?
                                                               then raw - FirstHorn(events).value
                                                           else raw
  {
    hide Run, Kept, FirstHorn, LastHorn;
    EndsOf(events);
  }

  ghost predicate OneHorn(events: seq<Event>, g: real) {
    FirstHorn(events) == Some(g) && forall e | e in events && e.Horn? && e.g > 0.0 :: e.g == g
  }

  /** With one horn the order of the stamps and the time between them are those of the raw clock. */
  lemma DifferencesAreKept(events: seq<Event>, g: real, i: nat, j: nat)
    requires Sane(events) && OneHorn(events, g) && i < |Kept(events)| && j < |Kept(events)|
    requires Kept(events)[i].0.Stamp? && Kept(events)[j].0.Stamp?
    ensures |Output(Run(events))| == |Kept(events)|
    ensures Output(Run(events))[i] - Output(Run(events))[j] == Kept(events)[i].0.raw - Kept(events)[j].0.raw
    ensures Output(Run(events))[i] == Kept(events)[i].0.raw - g
  {
    hide Run, FirstHorn, Output;
    EveryStampEndsOnce(events);
    HornsAre(events, g, i);
    HornsAre(events, g, j);
  }

  lemma {:induction false} HornsAre(events: seq<Event>, g: real, i: nat)
    requires (forall e | e in events && e.Horn? && e.g > 0.0 :: e.g == g) && i < |Kept(events)|
    ensures Kept(events)[i].1 == 0.0 || Kept(events)[i].1 == g
    ensures LastHorn(events) == 0.0 || LastHorn(events) == g
  {
    var n := |events| - 1;
    assert forall e | e in events[..n] :: e in events;
    assert events[n] in events;
    LastHornIs(events, g);
    if i < |Kept(events[..n])| {
      HornsAre(events[..n], g, i);
    } else {
      LastHornIs(events[..n], g);
    }
  }

  lemma {:induction false} LastHornIs(events: seq<Event>, g: real)
    requires forall e | e in events && e.Horn? && e.g > 0.0 :: e.g == g
    ensures LastHorn(events) == 0.0 || LastHorn(events) == g
  {
    if events != [] {
      assert forall e | e in events[..|events| - 1] :: e in events;
      assert events[|events| - 1] in events;
      LastHornIs(events[..|events| - 1], g);
    }
  }

  /** A stamp taken before the horn is moved onto the game clock exactly when the raw clock read at most 100000. */
  lemma OnlyTheBandMoves(raw: real, g: real)
    requires g > 0.0 && g != EPOCH
    ensures Moved(GameSeconds(0.0, raw), EPOCH - g) == raw - g <==> raw <= 100000.0
  {
  }
}
