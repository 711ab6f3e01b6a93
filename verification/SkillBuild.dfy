/** Ability level rises paired with spent skill points (main.go, recordSkillUp to appendSkillUp): the skill build of
    one player. */
module SkillBuild {
  import opened Sets
  import opened Wrappers

  datatype Rise = Rise(name: string, level: int, t: real, hidden: bool)

  /** The levels in the basic (0 to 2), other and ultimate (5) slots. */
  type Slots = s: seq<int> | |s| == 6 witness [0, 0, 0, 0, 0, 0]

  datatype Entry = Entry(t: real, name: string, level: int, heroLevel: int)

  /** A spent point and the rise it paid for, chosen among the waiting ones: forced into the attribute bonus, listed
      in the build, or neither. level, slots: the hero's then; record: the ability's level on record before; at: the
      entries listed before. */
  datatype Pair = Pair(point: real, now: Moment, rise: Rise, among: seq<Rise>, level: nat, slots: Slots, forced: bool,
      listed: bool, record: int, at: nat)

  /** A point given up, and the rises that waited then. */
  datatype Drop = Drop(point: real, now: Moment, among: seq<Rise>)

  /** A rise given up. */
  datatype Loss = Loss(rise: Rise, now: Moment)

  /** The moment of a call; the last one of a replay is later than everything. */
  datatype Moment = At(t: real) | End

  const SKILL_MATCH_WINDOW := 3.0
  const SKILL_SETTLE := 0.1
  const ATTRIBUTES := "special_bonus_attributes"
  const TALENT := "special_bonus_"

  /** What happened so far: the points seen spent one by one, the rises that waited, the pairs made, the points and
      rises given up, the points a hero was first seen with, the entries listed for them, and the other entries no
      single point was seen for. */
  datatype History = History(points: seq<real>, recorded: seq<Rise>, pairs: seq<Pair>, drops: seq<Drop>,
      losses: seq<Loss>, seen: nat, first: nat, direct: nat)

  datatype State = State(credits: seq<real>, rises: seq<Rise>, prev: map<string, int>, build: seq<Entry>,
                         spent: nat, spentSeen: bool, level: nat, slots: Slots, past: History)

  function Abs(x: real): real {
    if x < 0.0 then -x else x
  }

  function Prev(s: State, name: string): int {
    if name in s.prev then s.prev[name] else 0
  }

  // ---- one entry

  function AppendUp(s: State, name: string, level: int, t: real): State {
    if level <= Prev(s, name) then s
    else s.(build := s.build + [Entry(t, name, level, s.level)], prev := s.prev[name := level])
  }

  /** No basic ability and not the ultimate can take a point at the hero's level. */
  predicate AbilitiesMaxed(level: nat, slots: Slots)
  {
    var basicMax := if exists i | 0 <= i < 3 :: slots[i] > 4 then 7 else 4;
    && (forall i | 0 <= i < 3 :: slots[i] >= basicMax)
    && slots[5] >= (if level / 6 > 3 then 3 else level / 6)
  }

  // ---- the choice of a rise

  predicate Settled(now: Moment, t: real) {
    now.End? || now.t - t >= SKILL_SETTLE
  }

  predicate StillOpen(now: Moment, t: real) {
    now.At? && now.t - t <= SKILL_MATCH_WINDOW
  }

  predicate Eligible(now: Moment, c: real, r: Rise) {
    Settled(now, r.t) && Abs(r.t - c) <= SKILL_MATCH_WINDOW
  }

  /** Visible before hidden, then the nearer in time. */
  predicate Better(c: real, a: Rise, b: Rise) {
    (b.hidden && !a.hidden) || (b.hidden == a.hidden && Abs(a.t - c) < Abs(b.t - c))
  }

  /** The choice among the first n rises. */
  function BestOf(now: Moment, c: real, rises: seq<Rise>, n: nat): (best: Option<nat>)
    requires n <= |rises|
    ensures best.Some? ==> best.value < n && Eligible(now, c, rises[best.value])
    ensures best.Some? ==> forall i | 0 <= i < n && Eligible(now, c, rises[i]) ::
              !Better(c, rises[i], rises[best.value]) && (i < best.value ==> Better(c, rises[best.value], rises[i]))
    ensures best == None ==> forall i | 0 <= i < n :: !Eligible(now, c, rises[i])
  {
    if n == 0 then None
    else
      var before := BestOf(now, c, rises, n - 1);
      if !Eligible(now, c, rises[n - 1]) then before
      else if before == None || Better(c, rises[n - 1], rises[before.value]) then Some(n - 1)
      else before
  }

  // ---- matchSkills

  function Without(rises: seq<Rise>, i: nat): seq<Rise>
    requires i < |rises|
  {
    rises[..i] + rises[i + 1..]
  }

  function Paired(h: History, p: Pair): History {
    h.(pairs := h.pairs + [p])
  }

  /** Point c takes the waiting rise i. */
  function Take(s: State, c: real, now: Moment, i: nat): State
    requires i < |s.rises|
  {
    var r := s.rises[i];
    var forced := r.name == ATTRIBUTES && AbilitiesMaxed(s.level, s.slots);
    var listed := !forced && r.level > Prev(s, r.name);
    var paired := s.(rises := Without(s.rises, i),
                     past := Paired(s.past, Pair(c, now, r, s.rises, s.level, s.slots, forced, listed,
                                                 Prev(s, r.name), |s.build|)));
    if forced then paired.(prev := s.prev[r.name := r.level]) else AppendUp(paired, r.name, r.level, r.t)
  }

  /** Point c is given up. */
  function GiveUp(s: State, c: real, now: Moment): State {
    s.(past := s.past.(drops := s.past.drops + [Drop(c, now, s.rises)]))
  }

  /** Point c's turn; the points that go on waiting collect in credits. */
  function MatchCredit(s: State, c: real, now: Moment): State {
    var best := BestOf(now, c, s.rises, |s.rises|);
    if best.Some? then Take(s, c, now, best.value)
    else if StillOpen(now, c) then s.(credits := s.credits + [c])
    else GiveUp(s, c, now)
  }

  function MatchCredits(s: State, cs: seq<real>, now: Moment): State
  {
    if cs == [] then s else MatchCredit(MatchCredits(s, cs[..|cs| - 1], now), cs[|cs| - 1], now)
  }

  function Waiting(rises: seq<Rise>, now: Moment): seq<Rise> {
    if rises == [] then []
    else
      var r := rises[|rises| - 1];
      Waiting(rises[..|rises| - 1], now) + if StillOpen(now, r.t) then [r] else []
  }

  /** The rises that do not go on waiting. */
  function Late(rises: seq<Rise>, now: Moment): seq<Loss> {
    if rises == [] then []
    else
      var r := rises[|rises| - 1];
      Late(rises[..|rises| - 1], now) + if StillOpen(now, r.t) then [] else [Loss(r, now)]
  }

  function MatchStep(s: State, now: Moment): State
  {
    var matched := MatchCredits(s.(credits := []), s.credits, now);
    matched.(rises := Waiting(matched.rises, now),
             past := matched.past.(losses := matched.past.losses + Late(matched.rises, now)))
  }

  // ---- the events

  datatype First = First(name: string, level: nat, t: real)

  datatype Event =
    | Rises(r: Rise)
    | Spends(spent: int, t: real)
    | FirstSeen(spent: int, levels: seq<First>)     // the levels in the basic and ultimate slots of a hero first seen
    | Hero(level: nat, slots: Slots)            // the hero's level and the levels in his ability slots
    | Ends

  predicate IsTalent(name: string) {
    TALENT <= name && name != ATTRIBUTES
  }

  /** The rise waits. */
  function Recorded(s: State, r: Rise): State {
    s.(rises := s.rises + [r], past := s.past.(recorded := s.past.recorded + [r]))
  }

  function RiseStep(s: State, r: Rise): State
  {
    if r.level <= Prev(s, r.name) then s
    else if s.spentSeen && !IsTalent(r.name) then
      MatchStep(Recorded(s, r), At(r.t))
    else
      var next := AppendUp(s, r.name, r.level, r.t);
      next.(past := s.past.(direct := s.past.direct + 1))
  }

  function Repeat(t: real, n: nat): seq<real> {
    seq(n, _ => t)
  }

  /** The points beyond those known wait. */
  function Spent(s: State, spent: int, t: real): State {
    var more := if spent > s.spent then spent - s.spent else 0;
    s.(credits := s.credits + Repeat(t, more), past := s.past.(points := s.past.points + Repeat(t, more)),
       spent := s.spent + more, spentSeen := true)
  }

  function SpendStep(s: State, spent: int, t: real): State
  {
    MatchStep(Spent(s, spent, t), At(t))
  }

  function Sum(levels: seq<First>): nat {
    if levels == [] then 0 else Sum(levels[..|levels| - 1]) + levels[|levels| - 1].level
  }

  /** Levels 1 to n of one ability. */
  function ListLevels(s: State, f: First, n: nat): State {
    if n == 0 then s
    else
      var before := ListLevels(s, f, n - 1);
      AppendUp(before, f.name, n, f.t).(past :=
          before.past.(first := before.past.first + if n <= Prev(before, f.name) then 0 else 1))
  }

  function ListFirst(s: State, levels: seq<First>): State {
    if levels == [] then s
    else
      var f := levels[|levels| - 1];
      ListLevels(ListFirst(s, levels[..|levels| - 1]), f, f.level)
  }

  function FirstStep(s: State, spent: int, levels: seq<First>): State {
    if s.spentSeen || spent <= 0 || Sum(levels) != spent then s
    else
      var listed := ListFirst(s, levels);
      listed.(spent := spent, spentSeen := true, past := listed.past.(seen := spent))
  }

  function Step(s: State, e: Event): State
  {
    match e
    case Rises(r) => RiseStep(s, r)
    case Spends(spent, t) => SpendStep(s, spent, t)
    case FirstSeen(spent, levels) => FirstStep(s, spent, levels)
    case Hero(level, slots) => s.(level := level, slots := slots)
    case Ends => MatchStep(s, End)
  }

  /** A player before anything is known of him. */
  ghost predicate Init(s: State) {
    && s.credits == [] && s.rises == [] && s.prev == map[] && s.build == [] && s.spent == 0 && !s.spentSeen
    && s.past == History([], [], [], [], [], 0, 0, 0)
  }

  ghost function Run(s: State, events: seq<Event>): State {
    if events == [] then s else Step(Run(s, events[..|events| - 1]), events[|events| - 1])
  }

  lemma MatchCreditsStep(s: State, cs: seq<real>, j: nat, now: Moment)
    requires j < |cs|
    ensures MatchCredits(s, cs[..j + 1], now) == MatchCredit(MatchCredits(s, cs[..j], now), cs[j], now)
  {
    hide MatchCredit;
    assert cs[..j + 1][..j] == cs[..j];
  }

  lemma WaitingStep(rises: seq<Rise>, j: nat, now: Moment)
    requires j < |rises|
    ensures Waiting(rises[..j + 1], now) == if StillOpen(now, rises[j].t) then Waiting(rises[..j], now) + [rises[j]]
            else Waiting(rises[..j], now)
    ensures Late(rises[..j + 1], now) == if StillOpen(now, rises[j].t) then Late(rises[..j], now)
            else Late(rises[..j], now) + [Loss(rises[j], now)]
  {
    assert rises[..j + 1][..j] == rises[..j];
  }

  /** The player's part of the parser's state. */
  class Skills {
    var credits: seq<real>            // SkillCredits
    var rises: seq<Rise>              // PendingRises
    var prev: map<string, int>        // PrevAbilityLvls
    var build: seq<Entry>             // SkillBuild
    var spent: nat
    var spentSeen: bool
    var level: nat
    var slots: Slots
    ghost var past: History

    constructor (level: nat, slots: Slots)
      ensures Init(Now())
    {
      credits, rises, prev, build, spent, spentSeen := [], [], map[], [], 0, false;
      this.level, this.slots := level, slots;
      past := History([], [], [], [], [], 0, 0, 0);
    }

    ghost function Now(): State
      reads this
    {
      State(credits, rises, prev, build, spent, spentSeen, level, slots, past)
    }

    function PrevLevel(name: string): int
      reads this
    {
      if name in prev then prev[name] else 0
    }

    method AppendSkillUp(name: string, lvl: int, t: real)
      modifies this`build, this`prev
      ensures Now() == AppendUp(old(Now()), name, lvl, t)
    {
      if lvl <= PrevLevel(name) {
        return;
      }
      build := build + [Entry(t, name, lvl, level)];
      prev := prev[name := lvl];
    }

    /** The rise a point takes, in one pass over the waiting ones. */
    method Choose(c: real, now: Moment) returns (best: Option<nat>)
      ensures best == BestOf(now, c, rises, |rises|)
    {
      best := None;
      for i := 0 to |rises|
        invariant best == BestOf(now, c, rises, i)
      {
        if Settled(now, rises[i].t) && Abs(rises[i].t - c) <= SKILL_MATCH_WINDOW {
          if best == None || Better(c, rises[i], rises[best.value]) {
            best := Some(i);
          }
        }
      }
    }

    method TakeRise(i: nat, ghost c: real, ghost now: Moment)
      requires i < |rises|
      modifies this`rises, this`prev, this`build, this`past
      ensures Now() == Take(old(Now()), c, now, i)
    {
      hide AbilitiesMaxed, AppendUp;
      var r := rises[i];
      var forced := r.name == ATTRIBUTES && AbilitiesMaxed(level, slots);
      var listed := !forced && r.level > PrevLevel(r.name);
      past := Paired(past, Pair(c, now, r, rises, level, slots, forced, listed, PrevLevel(r.name), |build|));
      rises := rises[..i] + rises[i + 1..];
      if forced {
        prev := prev[r.name := r.level];
      } else {
        AppendSkillUp(r.name, r.level, r.t);
      }
    }

    /** One point's turn; keep says whether it goes on waiting. */
    method MatchPoint(c: real, now: Moment, ghost before: seq<real>) returns (keep: bool)
      modifies this`rises, this`prev, this`build, this`past
      ensures var was := old(Now()).(credits := before);
              Now().(credits := if keep then before + [c] else before) == MatchCredit(was, c, now)
    {
      hide BestOf, Take;
      var best := Choose(c, now);
      if best == None {
        keep := StillOpen(now, c);
        past := if keep then past else past.(drops := past.drops + [Drop(c, now, rises)]);
        return;
      }
      TakeFrame(Now(), c, now, best.value, before);
      TakeRise(best.value, c, now);
      keep := false;
    }

    method MatchSkills(now: Moment)
      modifies this`credits, this`rises, this`prev, this`build, this`past
      ensures Now() == MatchStep(old(Now()), now)
    {
      hide MatchCredit, MatchCredits, Waiting, Late;
      ghost var was := Now().(credits := []);
      var kept: seq<real> := [];
      NoCredits(was, now);
      for j := 0 to |credits|
        invariant credits == old(credits)
        invariant Now().(credits := kept) == MatchCredits(was, credits[..j], now)
      {
        MatchCreditsStep(was, credits, j, now);
        var keep := MatchPoint(credits[j], now, kept);
        if keep {
          kept := kept + [credits[j]];
        }
      }
      assert credits[..|credits|] == credits;
      credits := kept;
      var left: seq<Rise> := [];
      ghost var all, lost: seq<Loss> := rises, [];
      for j := 0 to |rises|
        invariant rises == all && Now() == MatchCredits(was, old(credits), now)
        invariant left == Waiting(rises[..j], now) && lost == Late(rises[..j], now)
      {
        WaitingStep(rises, j, now);
        if StillOpen(now, rises[j].t) {
          left := left + [rises[j]];
        } else {
          lost := lost + [Loss(rises[j], now)];
        }
      }
      assert rises[..|rises|] == rises;
      rises, past := left, past.(losses := past.losses + lost);
    }

    method RecordSkillUp(r: Rise)
      modifies this
      ensures Now() == Step(old(Now()), Rises(r))
    {
      hide MatchStep, AppendUp;
      if r.level <= PrevLevel(r.name) {
        return;
      }
      if spentSeen {
        if IsTalent(r.name) {
          AppendSkillUp(r.name, r.level, r.t);
          past := past.(direct := past.direct + 1);
          return;
        }
        rises, past := rises + [r], past.(recorded := past.recorded + [r]);
        MatchSkills(At(r.t));
        return;
      }
      AppendSkillUp(r.name, r.level, r.t);
      past := past.(direct := past.direct + 1);
    }

    method ListUp(f: First)
      modifies this`build, this`prev, this`past
      ensures Now() == ListLevels(old(Now()), f, f.level)
    {
      hide ListLevels, AppendUp;
      NoLevels(Now(), f);
      for lvl := 1 to f.level + 1
        invariant Now() == ListLevels(old(Now()), f, lvl - 1)
      {
        LevelsStep(old(Now()), f, lvl - 1);
        ghost var listed := lvl > PrevLevel(f.name);
        AppendSkillUp(f.name, lvl, f.t);
        past := past.(first := past.first + if listed then 1 else 0);
      }
    }

    /** A hero first seen with points already spent: the levels in the basic and ultimate slots are those points when
        they add up. */
    method SeeFirst(now: int, levels: seq<First>)
      modifies this
      ensures Now() == Step(old(Now()), FirstSeen(now, levels))
    {
      hide ListLevels, ListFirst, Sum;
      var firstSum := 0;
      NoFirst(Now());
      for j := 0 to |levels|
        invariant Now() == old(Now()) && firstSum == Sum(levels[..j])
      {
        SumStep(levels, j);
        firstSum := firstSum + levels[j].level;
      }
      assert levels[..|levels|] == levels;
      if !spentSeen && now > 0 && firstSum == now {
        for j := 0 to |levels|
          invariant Now() == ListFirst(old(Now()), levels[..j])
        {
          FirstStepAt(old(Now()), levels, j);
          ListUp(levels[j]);
        }
        spent, spentSeen, past := now, true, past.(seen := now);
      }
    }

    method SkillSpent(now: int, t: real)
      modifies this
      ensures Now() == Step(old(Now()), Spends(now, t))
    {
      hide MatchStep;
      var n: int := spent;
      while n < now
        invariant spent == old(spent) && spentSeen == old(spentSeen) && n >= spent
        invariant n <= now || n == spent
        invariant credits == old(credits) + Repeat(t, n - spent)
        invariant past == old(past).(points := old(past).points + Repeat(t, n - spent))
        invariant Now() == old(Now()).(credits := credits, past := past)
      {
        credits, past := credits + [t], past.(points := past.points + [t]);
        n := n + 1;
      }
      if now > spent {
        spent := now;
      }
      spentSeen := true;
      MatchSkills(At(t));
    }
  }

  /** Taking a rise does not look at the waiting points. */
  lemma TakeFrame(s: State, c: real, now: Moment, i: nat, credits: seq<real>)
    requires i < |s.rises|
    ensures Take(s.(credits := credits), c, now, i) == Take(s, c, now, i).(credits := credits)
  {
    hide AbilitiesMaxed, Without, Paired;
  }

  lemma NoLevels(s: State, f: First)
    ensures ListLevels(s, f, 0) == s
  {
  }

  lemma LevelsStep(s: State, f: First, n: nat)
    ensures var before := ListLevels(s, f, n);
            ListLevels(s, f, n + 1) ==
            AppendUp(before, f.name, n + 1, f.t).(past :=
                before.past.(first := before.past.first + if n + 1 <= Prev(before, f.name) then 0 else 1))
  {
  }

  lemma NoFirst(s: State)
    ensures ListFirst(s, []) == s && Sum([]) == 0
  {
  }

  lemma SumStep(levels: seq<First>, j: nat)
    requires j < |levels|
    ensures Sum(levels[..j + 1]) == Sum(levels[..j]) + levels[j].level
  {
    assert levels[..j + 1][..j] == levels[..j];
  }

  lemma FirstStepAt(s: State, levels: seq<First>, j: nat)
    requires j < |levels|
    ensures ListFirst(s, levels[..j + 1]) == ListLevels(ListFirst(s, levels[..j]), levels[j], levels[j].level)
  {
    assert levels[..j + 1][..j] == levels[..j];
  }

  lemma NoCredits(s: State, now: Moment)
    ensures MatchCredits(s, [], now) == s && Waiting([], now) == [] && Late([], now) == []
  {
  }

  // ---- every point pays once, every rise is used once

  ghost function Points(pairs: seq<Pair>): seq<real> {
    seq(|pairs|, i requires 0 <= i < |pairs| => pairs[i].point)
  }

  ghost function Used(pairs: seq<Pair>): seq<Rise> {
    seq(|pairs|, i requires 0 <= i < |pairs| => pairs[i].rise)
  }

  ghost function Listed(pairs: seq<Pair>): nat {
    if pairs == [] then 0 else Listed(pairs[..|pairs| - 1]) + if pairs[|pairs| - 1].listed then 1 else 0
  }

  ghost function Forced(pairs: seq<Pair>): nat {
    if pairs == [] then 0 else Forced(pairs[..|pairs| - 1]) + if pairs[|pairs| - 1].forced then 1 else 0
  }

  ghost function Dropped(drops: seq<Drop>): seq<real> {
    seq(|drops|, i requires 0 <= i < |drops| => drops[i].point)
  }

  ghost function Lost(losses: seq<Loss>): seq<Rise> {
    seq(|losses|, i requires 0 <= i < |losses| => losses[i].rise)
  }

  /** A tenth of a second old at least, and no more than three seconds from the point. */
  ghost predicate Can(now: Moment, point: real, r: Rise) {
    (now.At? ==> now.t - r.t >= 0.1) && -3.0 <= r.t - point <= 3.0
  }

  /** More than three seconds ago, or the replay ends. */
  ghost predicate Past(now: Moment, t: real) {
    now == End || (now.At? && now.t - t > 3.0)
  }

  ghost function Distance(a: real, b: real): real {
    if a <= b then b - a else a - b
  }

  /** The basic abilities are at 4, or at 7 where one goes past 4, and the ultimate is at 1, 2, 3 from the levels 6, 12,
      18 on. */
  ghost predicate NothingElseOpen(level: nat, slots: Slots) {
    && slots[0] >= 4 && slots[1] >= 4 && slots[2] >= 4
    && (slots[0] > 4 || slots[1] > 4 || slots[2] > 4 ==> slots[0] >= 7 && slots[1] >= 7 && slots[2] >= 7)
    && slots[5] >= 0 && (level >= 6 ==> slots[5] >= 1) && (level >= 12 ==> slots[5] >= 2)
    && (level >= 18 ==> slots[5] >= 3)
  }

  /** The rise waited and could be taken; of those that could, none is visible while it is hidden, and none as visible
      is nearer. It is listed if its level is above the record, but not a bonus taken with nothing else open. */
  ghost predicate Good(p: Pair) {
    && p.rise in p.among && Can(p.now, p.point, p.rise)
    && (forall o | o in p.among && Can(p.now, p.point, o) ::
          && (p.rise.hidden ==> o.hidden)
          && (p.rise.hidden == o.hidden ==> Distance(p.rise.t, p.point) <= Distance(o.t, p.point)))
    && (p.forced <==> p.rise.name == "special_bonus_attributes" && NothingElseOpen(p.level, p.slots))
    && (p.listed <==> !p.forced && p.rise.level > p.record)
  }

  /** A point is given up only when it is past and no rise that waited could be taken. */
  ghost predicate Hopeless(d: Drop) {
    Past(d.now, d.point) && forall r | r in d.among :: !Can(d.now, d.point, r)
  }

  /** Every point seen is paired, waits, was given up, or has its turn still to come: the extra ones. The same of the
      rises. */
  ghost predicate Balanced(s: State, extra: seq<real>) {
    && multiset(Points(s.past.pairs)) + multiset(s.credits) + multiset(extra) + multiset(Dropped(s.past.drops))
       == multiset(s.past.points)
    && multiset(Used(s.past.pairs)) + multiset(s.rises) + multiset(Lost(s.past.losses)) == multiset(s.past.recorded)
  }

  ghost predicate Justified(h: History) {
    && (forall p | p in h.pairs :: Good(p))
    && (forall d | d in h.drops :: Hopeless(d))
    && (forall l | l in h.losses :: Past(l.now, l.rise.t))
  }

  ghost predicate Fair(s: State, extra: seq<real>) {
    && Balanced(s, extra) && Justified(s.past)
    && |s.past.points| + s.past.seen == s.spent && s.past.first <= s.past.seen
    && |s.build| == s.past.direct + s.past.first + Listed(s.past.pairs)
  }

  ghost predicate Inv(s: State) {
    && Fair(s, [])
    && (!s.spentSeen ==>
          && s.credits == [] && s.rises == [] && s.past.pairs == [] && s.past.points == []
          && s.spent == 0 && s.past.first == 0)
  }

  lemma DropsAdd(drops: seq<Drop>, d: Drop)
    ensures multiset(Dropped(drops + [d])) == multiset(Dropped(drops)) + multiset{d.point}
  {
    assert Dropped(drops + [d]) == Dropped(drops) + [d.point];
  }

  lemma LossesAdd(a: seq<Loss>, b: seq<Loss>)
    ensures multiset(Lost(a + b)) == multiset(Lost(a)) + multiset(Lost(b))
  {
    assert Lost(a + b) == Lost(a) + Lost(b);
  }

  lemma PairsAdd(pairs: seq<Pair>, p: Pair)
    ensures multiset(Points(pairs + [p])) == multiset(Points(pairs)) + multiset{p.point}
    ensures multiset(Used(pairs + [p])) == multiset(Used(pairs)) + multiset{p.rise}
    ensures Listed(pairs + [p]) == Listed(pairs) + if p.listed then 1 else 0
    ensures Forced(pairs + [p]) == Forced(pairs) + if p.forced then 1 else 0
  {
    assert (pairs + [p])[..|pairs|] == pairs;
    assert Points(pairs + [p]) == Points(pairs) + [p.point];
    assert Used(pairs + [p]) == Used(pairs) + [p.rise];
  }

  lemma WithoutOne(rises: seq<Rise>, i: nat)
    requires i < |rises|
    ensures multiset(rises) == multiset(Without(rises, i)) + multiset{rises[i]}
  {
    assert rises == rises[..i] + [rises[i]] + rises[i + 1..];
  }

  lemma OneLoss(l: Loss)
    ensures Lost([l]) == [l.rise] && Lost([]) == []
  {
  }

  lemma OneRise(rises: seq<Rise>, r: Rise)
    ensures multiset(rises + [r]) == multiset(rises) + multiset{r}
  {
  }

  /** Every rise goes on waiting or is given up. */
  lemma {:induction false} WaitingOrLate(rises: seq<Rise>, now: Moment)
    ensures multiset(Waiting(rises, now)) + multiset(Lost(Late(rises, now))) == multiset(rises)
  {
    hide Lost;
    if rises == [] {
      OneLoss(Loss(Rise("", 0, 0.0, false), now));
    } else {
      var n := |rises| - 1;
      WaitingOrLate(rises[..n], now);
      OneMore(rises[..n], rises[n], now);
      assert rises == rises[..n] + [rises[n]];
    }
  }

  lemma OneMore(front: seq<Rise>, r: Rise, now: Moment)
    requires multiset(Waiting(front, now)) + multiset(Lost(Late(front, now))) == multiset(front)
    ensures var rises := front + [r];
            multiset(Waiting(rises, now)) + multiset(Lost(Late(rises, now))) == multiset(rises)
  {
    hide Lost, Waiting, Late, StillOpen;
    var rises := front + [r];
    assert rises[..|front|] == front && rises[..|front| + 1] == rises;
    WaitingStep(rises, |front|, now);
    OneRise(front, r);
    OneRise(Waiting(front, now), r);
    LossesAdd(Late(front, now), [Loss(r, now)]);
    OneLoss(Loss(r, now));
  }

  lemma {:induction false} LateIsPast(rises: seq<Rise>, now: Moment)
    ensures forall l | l in Late(rises, now) :: Past(l.now, l.rise.t)
  {
    if rises != [] { LateIsPast(rises[..|rises| - 1], now); }
  }

  lemma CanIsEligible(now: Moment, c: real, r: Rise)
    ensures Can(now, c, r) <==> Eligible(now, c, r)
  {
  }

  lemma NothingElse(level: nat, slots: Slots)
    ensures AbilitiesMaxed(level, slots) <==> NothingElseOpen(level, slots)
  {
    assert slots[0] > 4 || slots[1] > 4 || slots[2] > 4 <==> exists i | 0 <= i < 3 :: slots[i] > 4;
  }

  lemma BestIsGood(p: Pair, best: nat)
    requires BestOf(p.now, p.point, p.among, |p.among|) == Some(best) && best < |p.among| && p.rise == p.among[best]
    requires p.forced == (p.rise.name == ATTRIBUTES && AbilitiesMaxed(p.level, p.slots))
    requires p.listed == (!p.forced && p.rise.level > p.record)
    ensures Good(p)
  {
    hide AbilitiesMaxed, NothingElseOpen, Can, Eligible, BestOf;
    NothingElse(p.level, p.slots);
    CanIsEligible(p.now, p.point, p.rise);
    BestInRange(p.now, p.point, p.among, best);
    forall o | o in p.among && Can(p.now, p.point, o)
      ensures (p.rise.hidden ==> o.hidden)
      ensures p.rise.hidden == o.hidden ==> Distance(p.rise.t, p.point) <= Distance(o.t, p.point)
    {
      CanIsEligible(p.now, p.point, o);
      var k :| 0 <= k < |p.among| && p.among[k] == o;
      BestIsBest(p.now, p.point, p.among, best, k);
    }
  }

  lemma TakeShape(s: State, c: real, now: Moment, i: nat) returns (p: Pair)
    requires i < |s.rises|
    ensures p.point == c && p.now == now && p.rise == s.rises[i] && p.among == s.rises
    ensures p.level == s.level && p.slots == s.slots && p.record == Prev(s, p.rise.name) && p.at == |s.build|
    ensures p.forced == (p.rise.name == ATTRIBUTES && AbilitiesMaxed(p.level, p.slots))
    ensures p.listed == (!p.forced && p.rise.level > p.record)
    ensures var t := Take(s, c, now, i);
            && t.credits == s.credits && t.rises == Without(s.rises, i) && t.spent == s.spent
               && t.spentSeen == s.spentSeen
            && t.past == s.past.(pairs := s.past.pairs + [p])
            && t.build == (if p.listed then s.build + [Entry(p.rise.t, p.rise.name, p.rise.level, p.level)]
               else s.build)
  {
    hide AbilitiesMaxed, Without;
    var r := s.rises[i];
    var forced := r.name == ATTRIBUTES && AbilitiesMaxed(s.level, s.slots);
    p := Pair(c, now, r, s.rises, s.level, s.slots, forced, !forced && r.level > Prev(s, r.name), Prev(s, r.name),
        |s.build|);
  }

  lemma TakeIsFair(s: State, c: real, extra: seq<real>, now: Moment, best: nat)
    requires Fair(s, [c] + extra) && BestOf(now, c, s.rises, |s.rises|) == Some(best)
    ensures best < |s.rises| && Fair(Take(s, c, now, best), extra)
  {
    hide BestOf, Listed, Good, Hopeless, Past, Without, Take, AbilitiesMaxed, Balanced;
    BestInRange(now, c, s.rises, best);
    var p := TakeShape(s, c, now, best);
    BestIsGood(p, best);
    PairsAdd(s.past.pairs, p);
    TakeIsBalanced(s, Take(s, c, now, best), c, extra, best, p);
  }

  lemma MovesOver<T>(a: multiset<T>, b: multiset<T>, c: multiset<T>, d: multiset<T>, x: T)
    ensures (a + multiset{x}) + b + c + d == a + b + (multiset{x} + c) + d
    ensures a + (b + multiset{x}) + c + d == a + b + (multiset{x} + c) + d
    ensures a + b + c + (d + multiset{x}) == a + b + (multiset{x} + c) + d
  {
  }

  lemma LeavesTheWaiting<T>(a: multiset<T>, w: multiset<T>, d: multiset<T>, x: T)
    ensures (a + multiset{x}) + w + d == a + (w + multiset{x}) + d
  {
  }

  lemma OnePoint(c: real, extra: seq<real>)
    ensures multiset([c] + extra) == multiset{c} + multiset(extra)
  {
  }

  lemma TakeIsBalanced(s: State, t: State, c: real, extra: seq<real>, best: nat, p: Pair)
    requires Balanced(s, [c] + extra) && best < |s.rises| && p.point == c && p.rise == s.rises[best]
    requires t.credits == s.credits && t.rises == Without(s.rises, best)
             && t.past == s.past.(pairs := s.past.pairs + [p])
    ensures Balanced(t, extra)
  {
    hide Points, Used, Dropped, Lost, Listed, Forced, Without;
    PairsAdd(s.past.pairs, p);
    OnePoint(c, extra);
    MovesOver(multiset(Points(s.past.pairs)), multiset(s.credits), multiset(extra), multiset(Dropped(s.past.drops)), c);
    WithoutOne(s.rises, best);
    LeavesTheWaiting(multiset(Used(s.past.pairs)), multiset(t.rises), multiset(Lost(s.past.losses)), p.rise);
  }

  lemma BestInRange(now: Moment, c: real, rises: seq<Rise>, best: nat)
    requires BestOf(now, c, rises, |rises|) == Some(best)
    ensures best < |rises|
  {
  }

  lemma MatchCreditIsFair(s: State, c: real, extra: seq<real>, now: Moment)
    requires Fair(s, [c] + extra)
    ensures Fair(MatchCredit(s, c, now), extra)
  {
    hide BestOf, Listed, Good, Hopeless, Past, Take, Balanced;
    var best := BestOf(now, c, s.rises, |s.rises|);
    if best.Some? {
      TakeIsFair(s, c, extra, now, best.value);
    } else {
      WaitIsBalanced(s, c, extra, now);
      if !StillOpen(now, c) { NoneIsHopeless(Drop(c, now, s.rises)); }
    }
  }

  lemma WaitIsBalanced(s: State, c: real, extra: seq<real>, now: Moment)
    requires Balanced(s, [c] + extra)
    ensures Balanced(s.(credits := s.credits + [c]), extra) && Balanced(GiveUp(s, c, now), extra)
  {
    hide Points, Used, Dropped, Lost;
    OnePoint(c, extra);
    MovesOver(multiset(Points(s.past.pairs)), multiset(s.credits), multiset(extra), multiset(Dropped(s.past.drops)), c);
    assert multiset(s.credits + [c]) == multiset(s.credits) + multiset{c};
    DropsAdd(s.past.drops, Drop(c, now, s.rises));
  }

  lemma NoneIsHopeless(d: Drop)
    requires BestOf(d.now, d.point, d.among, |d.among|) == None && !StillOpen(d.now, d.point)
    ensures Hopeless(d)
  {
    hide BestOf, Can, Eligible;
    NoneEligible(d.now, d.point, d.among);
    forall r | r in d.among ensures !Can(d.now, d.point, r) { CanIsEligible(d.now, d.point, r); }
  }

  lemma {:induction false} MatchCreditsAreFair(s: State, cs: seq<real>, n: nat, now: Moment)
    requires Fair(s, cs) && n <= |cs|
    ensures Fair(MatchCredits(s, cs[..n], now), cs[n..])
  {
    hide Fair, MatchCredit;
    if n == 0 {
      NoCredits(s, now);
      assert cs[..0] == [] && cs[0..] == cs;
    } else {
      MatchCreditsAreFair(s, cs, n - 1, now);
      MatchCreditsStep(s, cs, n - 1, now);
      assert cs[n - 1..] == [cs[n - 1]] + cs[n..];
      MatchCreditIsFair(MatchCredits(s, cs[..n - 1], now), cs[n - 1], cs[n..], now);
    }
  }

  lemma MatchStepIsFair(s: State, now: Moment)
    requires Fair(s, [])
    ensures Fair(MatchStep(s, now), [])
  {
    hide MatchCredits, Waiting, Late, Balanced, Listed, Good, Hopeless, Past;
    var cs := s.credits;
    var start := s.(credits := []);
    StartIsBalanced(s);
    MatchCreditsAreFair(start, cs, |cs|, now);
    assert cs[..|cs|] == cs && cs[|cs|..] == [];
    var t := MatchCredits(start, cs, now);
    LateIsPast(t.rises, now);
    WaitingIsBalanced(t, now);
  }

  lemma StartIsBalanced(s: State)
    requires Balanced(s, [])
    ensures Balanced(s.(credits := []), s.credits)
  {
    hide Points, Used, Dropped, Lost;
  }

  lemma WaitingIsBalanced(s: State, now: Moment)
    requires Balanced(s, [])
    ensures Balanced(s.(rises := Waiting(s.rises, now),
                        past := s.past.(losses := s.past.losses + Late(s.rises, now))), [])
  {
    hide Waiting, Late, Points, Used, Dropped, Lost;
    WaitingOrLate(s.rises, now);
    LossesAdd(s.past.losses, Late(s.rises, now));
  }

  lemma {:induction false} MatchFrame(s: State, cs: seq<real>, now: Moment)
    ensures MatchCredits(s, cs, now).spentSeen == s.spentSeen
  {
    hide BestOf, Without, AbilitiesMaxed;
    if cs != [] { MatchFrame(s, cs[..|cs| - 1], now); }
  }

  /** What listing the levels of a hero first seen adds. */
  ghost predicate ListsAtMost(s: State, t: State, n: nat) {
    && t.past.first <= s.past.first + n && |t.build| - |s.build| == t.past.first - s.past.first
    && t == s.(build := t.build, prev := t.prev, past := s.past.(first := t.past.first))
  }

  lemma {:induction false} LevelsListAtMost(s: State, f: First, n: nat)
    ensures ListsAtMost(s, ListLevels(s, f, n), n)
  {
    if n > 0 { LevelsListAtMost(s, f, n - 1); }
  }

  lemma {:induction false} FirstListsAtMost(s: State, levels: seq<First>)
    ensures ListsAtMost(s, ListFirst(s, levels), Sum(levels))
  {
    hide ListLevels;
    if levels != [] {
      var n := |levels| - 1;
      FirstListsAtMost(s, levels[..n]);
      LevelsListAtMost(ListFirst(s, levels[..n]), levels[n], levels[n].level);
    }
  }

  lemma SpendIsFair(s: State, spent: int, t: real)
    requires Fair(s, [])
    ensures Fair(SpendStep(s, spent, t), [])
  {
    hide Balanced, Listed, Good, Hopeless, Past, MatchStep;
    SpentIsBalanced(s, spent, t);
    MatchStepIsFair(Spent(s, spent, t), At(t));
  }

  lemma SpentIsBalanced(s: State, spent: int, t: real)
    requires Balanced(s, [])
    ensures Balanced(Spent(s, spent, t), [])
  {
    hide Points, Used, Dropped, Lost;
    var more := if spent > s.spent then spent - s.spent else 0;
    assert multiset(s.credits + Repeat(t, more)) == multiset(s.credits) + multiset(Repeat(t, more));
    assert multiset(s.past.points + Repeat(t, more)) == multiset(s.past.points) + multiset(Repeat(t, more));
  }

  lemma RiseIsFair(s: State, r: Rise)
    requires Fair(s, [])
    ensures Fair(RiseStep(s, r), [])
  {
    hide Balanced, Listed, Good, Hopeless, Past, MatchStep;
    if r.level > Prev(s, r.name) && s.spentSeen && !IsTalent(r.name) {
      RecordedIsBalanced(s, r);
      MatchStepIsFair(Recorded(s, r), At(r.t));
    } else {
      SameBalance(s, RiseStep(s, r));
    }
  }

  lemma RecordedIsBalanced(s: State, r: Rise)
    requires Balanced(s, [])
    ensures Balanced(Recorded(s, r), [])
  {
    hide Points, Used, Dropped, Lost;
    OneRise(s.rises, r);
    OneRise(s.past.recorded, r);
  }

  lemma SameBalance(s: State, t: State)
    requires Balanced(s, []) && t.credits == s.credits && t.rises == s.rises && t.past.pairs == s.past.pairs
    requires t.past.points == s.past.points && t.past.recorded == s.past.recorded && t.past.drops == s.past.drops
             && t.past.losses == s.past.losses
    ensures Balanced(t, [])
  {
  }

  lemma StepKeepsInv(s: State, e: Event)
    requires Inv(s)
    ensures Inv(Step(s, e))
  {
    hide Fair, MatchStep, RiseStep, SpendStep, FirstStep;
    match e {
      case Rises(r) =>
        RiseIsFair(s, r);
        RiseFrame(s, r);
      case Spends(spent, t) =>
        SpendIsFair(s, spent, t);
        SpendFrame(s, spent, t);
      case FirstSeen(spent, levels) => FirstKeepsInv(s, spent, levels);
      case Hero(level, slots) => HeroKeepsFair(s, level, slots);
      case Ends =>
        MatchStepIsFair(s, End);
        EndFrame(s);
    }
  }

  lemma HeroKeepsFair(s: State, level: nat, slots: Slots)
    requires Fair(s, [])
    ensures Fair(s.(level := level, slots := slots), [])
  {
    hide Balanced, Listed, Good, Hopeless, Past;
    SameBalance(s, s.(level := level, slots := slots));
  }

  lemma RiseFrame(s: State, r: Rise)
    ensures var t := RiseStep(s, r);
            && t.spentSeen == s.spentSeen
            && (!s.spentSeen ==> t == s.(build := t.build, prev := t.prev, past := s.past.(direct := t.past.direct)))
  {
    hide MatchCredits, Waiting;
    if s.spentSeen {
      MatchFrame(Recorded(s, r).(credits := []), s.credits, At(r.t));
    }
  }

  lemma SpendFrame(s: State, spent: int, t: real)
    ensures SpendStep(s, spent, t).spentSeen
  {
    hide MatchCredits, Waiting;
    var next := Spent(s, spent, t);
    MatchFrame(next.(credits := []), next.credits, At(t));
  }

  lemma EndFrame(s: State)
    requires Inv(s)
    ensures MatchStep(s, End).spentSeen == s.spentSeen
    ensures !s.spentSeen ==> MatchStep(s, End) == s
  {
    hide Fair, MatchCredits, Waiting, Late;
    MatchFrame(s.(credits := []), s.credits, End);
    NoCredits(s, End);
    assert s.past.losses + [] == s.past.losses;
  }

  lemma FirstKeepsInv(s: State, spent: int, levels: seq<First>)
    requires Inv(s)
    ensures Inv(FirstStep(s, spent, levels))
  {
    hide Balanced, Listed, Good, Hopeless, Past, ListFirst, Sum;
    FirstListsAtMost(s, levels);
    SameBalance(s, FirstStep(s, spent, levels));
  }

  lemma {:induction false} RunKeepsInv(s: State, events: seq<Event>)
    requires Init(s)
    ensures Inv(Run(s, events))
  {
    hide Step, Fair;
    if events == [] {
      InitIsFair(s);
    } else {
      RunKeepsInv(s, events[..|events| - 1]);
      StepKeepsInv(Run(s, events[..|events| - 1]), events[|events| - 1]);
    }
  }

  lemma InitIsFair(s: State)
    requires Init(s)
    ensures Fair(s, [])
  {
  }

  lemma {:induction false} ListedOrForced(pairs: seq<Pair>)
    requires forall p | p in pairs :: Good(p)
    ensures Listed(pairs) + Forced(pairs) <= |pairs|
  {
    hide Eligible, Better;
    if pairs != [] {
      var n := |pairs| - 1;
      assert forall p | p in pairs[..n] :: p in pairs;
      assert pairs[n] in pairs;
      ListedOrForced(pairs[..n]);
    }
  }

  /** Over every run: each point seen spent is in one pair, waits, or was given up, and so is each rise that waited;
      every pair takes the best rise that could be taken; a point is given up only more than three seconds on, or at
      the end, with no rise that could be taken, a rise only as late; every entry of the build is one a point paid for,
      one of a hero first seen with points spent, or one recorded without the counters or for a talent; and the entries
      points paid for, the forced bonuses and the waiting points are no more than the points spent. */
  lemma EveryPointPaysOnce(s: State, events: seq<Event>)
    requires Init(s)
    ensures var t := Run(s, events); var h := t.past;
            && multiset(Points(h.pairs)) + multiset(t.credits) + multiset(Dropped(h.drops)) == multiset(h.points)
            && multiset(Used(h.pairs)) + multiset(t.rises) + multiset(Lost(h.losses)) == multiset(h.recorded)
            && (forall p | p in h.pairs :: Good(p))
            && (forall d | d in h.drops :: Hopeless(d))
            && (forall l | l in h.losses :: Past(l.now, l.rise.t))
            && |h.points| + h.seen == t.spent && |t.build| == h.direct + h.first + Listed(h.pairs)
            && h.first + Listed(h.pairs) + Forced(h.pairs) + |t.credits| <= t.spent
  {
    hide Run, Good, Hopeless, Past, Listed, Forced, Dropped;
    RunKeepsInv(s, events);
    var t := Run(s, events);
    ListedOrForced(t.past.pairs);
    var paid := multiset(Points(t.past.pairs)) + multiset(t.credits);
    assert paid <= multiset(t.past.points);
    MultisetSize(paid, multiset(t.past.points));
    assert |paid| == |t.past.pairs| + |t.credits|;
  }

  lemma MultisetSize(a: multiset<real>, b: multiset<real>)
    requires a <= b
    ensures |a| <= |b|
  {
    assert b == a + (b - a);
  }

  // ---- the points known

  lemma MatchKeepsSpent(s: State, now: Moment)
    ensures MatchStep(s, now).spent == s.spent
  {
    hide MatchCredits, Waiting, Late;
    CreditsKeepSpent(s.(credits := []), s.credits, now);
  }

  lemma {:induction false} CreditsKeepSpent(s: State, cs: seq<real>, now: Moment)
    ensures MatchCredits(s, cs, now).spent == s.spent
  {
    hide BestOf, Without, AbilitiesMaxed;
    if cs != [] { CreditsKeepSpent(s, cs[..|cs| - 1], now); }
  }

  lemma StepSpent(s: State, e: Event)
    requires Inv(s)
    ensures var t := Step(s, e);
            && t.spent >= s.spent && (e.Spends? ==> e.spent <= t.spent)
            && (t.spent == s.spent || ((e.Spends? || e.FirstSeen?) && t.spent == e.spent))
  {
    hide MatchStep, ListFirst, Sum, Fair;
    match e {
      case Rises(r) => MatchKeepsSpent(Recorded(s, r), At(r.t));
      case Spends(spent, t) => MatchKeepsSpent(Spent(s, spent, t), At(t));
      case FirstSeen(spent, levels) =>
      case Hero(level, slots) =>
      case Ends => MatchKeepsSpent(s, End);
    }
  }

  /** The points known are the highest number read: none read is above it, and it is one of those read. */
  lemma {:induction false} SpentIsTheHighest(s: State, events: seq<Event>)
    requires Init(s)
    ensures var known := Run(s, events).spent;
            && (forall n | 0 <= n < |events| && events[n].Spends? :: events[n].spent <= known)
            && (known == 0 ||
                (exists n :: 0 <= n < |events| && (events[n].Spends? || events[n].FirstSeen?)
                             && events[n].spent == known))
  {
    hide Step, Inv;
    if events != [] {
      var n := |events| - 1;
      SpentIsTheHighest(s, events[..n]);
      RunKeepsInv(s, events[..n]);
      StepSpent(Run(s, events[..n]), events[n]);
      var before := Run(s, events[..n]).spent;
      if before != 0 && Run(s, events).spent == before {
        var k :| 0 <= k < n && (events[..n][k].Spends? || events[..n][k].FirstSeen?) && events[..n][k].spent == before;
        assert events[k] == events[..n][k];
      } else if Run(s, events).spent != 0 {
        assert events[n].spent == Run(s, events).spent;
      }
      forall k | 0 <= k < |events| && events[k].Spends? ensures events[k].spent <= Run(s, events).spent {
        if k < n { assert events[k] == events[..n][k]; }
      }
    }
  }

  // ---- the entries points paid for

  /** Each listed pair's entry, with the rise's own time, name and level and the hero's level then, in the order of the
      pairs. */
  ghost predicate Written(s: State) {
    && (forall k | 0 <= k < |s.past.pairs| :: s.past.pairs[k].at <= |s.build|)
    && (forall k | 0 <= k < |s.past.pairs| && s.past.pairs[k].listed ::
          var p := s.past.pairs[k];
          p.at < |s.build| && s.build[p.at] == Entry(p.rise.t, p.rise.name, p.rise.level, p.level))
    && (forall k, l | 0 <= k < l < |s.past.pairs| && s.past.pairs[k].listed :: s.past.pairs[k].at < s.past.pairs[l].at)
  }

  /** The pairs stay and the build grows at its end. */
  lemma GrowsWritten(s: State, t: State)
    requires Written(s) && t.past.pairs == s.past.pairs && s.build <= t.build
    ensures Written(t)
  {
  }

  lemma TakeWritten(s: State, c: real, now: Moment, i: nat)
    requires i < |s.rises| && Written(s)
    ensures Written(Take(s, c, now, i))
  {
    hide Take, AbilitiesMaxed, Without;
    var p := TakeShape(s, c, now, i);
    var t := Take(s, c, now, i);
    assert forall k | 0 <= k < |s.past.pairs| :: t.past.pairs[k] == s.past.pairs[k];
    assert s.build <= t.build;
  }

  lemma {:induction false} MatchCreditsWritten(s: State, cs: seq<real>, now: Moment)
    requires Written(s)
    ensures Written(MatchCredits(s, cs, now))
  {
    hide Written, Take, BestOf;
    if cs != [] {
      MatchCreditsWritten(s, cs[..|cs| - 1], now);
      var t, c := MatchCredits(s, cs[..|cs| - 1], now), cs[|cs| - 1];
      var best := BestOf(now, c, t.rises, |t.rises|);
      if best.Some? {
        BestInRange(now, c, t.rises, best.value);
        TakeWritten(t, c, now, best.value);
      } else {
        GrowsWritten(t, MatchCredit(t, c, now));
      }
    }
  }

  lemma MatchStepWritten(s: State, now: Moment)
    requires Written(s)
    ensures Written(MatchStep(s, now))
  {
    hide MatchCredits, Waiting, Late, Written;
    GrowsWritten(s, s.(credits := []));
    MatchCreditsWritten(s.(credits := []), s.credits, now);
    GrowsWritten(MatchCredits(s.(credits := []), s.credits, now), MatchStep(s, now));
  }

  lemma {:induction false} LevelsGrow(s: State, f: First, n: nat)
    ensures s.build <= ListLevels(s, f, n).build
  {
    if n > 0 { LevelsGrow(s, f, n - 1); }
  }

  lemma {:induction false} FirstGrows(s: State, levels: seq<First>)
    ensures s.build <= ListFirst(s, levels).build
  {
    hide ListLevels;
    if levels != [] {
      var n := |levels| - 1;
      FirstGrows(s, levels[..n]);
      LevelsGrow(ListFirst(s, levels[..n]), levels[n], levels[n].level);
    }
  }

  lemma StepWritten(s: State, e: Event)
    requires Written(s)
    ensures Written(Step(s, e))
  {
    hide MatchStep, ListFirst, Sum, Written;
    match e {
      case Rises(r) =>
        if r.level > Prev(s, r.name) && s.spentSeen && !IsTalent(r.name) {
          GrowsWritten(s, Recorded(s, r));
          MatchStepWritten(Recorded(s, r), At(r.t));
        } else {
          GrowsWritten(s, Step(s, e));
        }
      case Spends(spent, t) =>
        GrowsWritten(s, Spent(s, spent, t));
        MatchStepWritten(Spent(s, spent, t), At(t));
      case FirstSeen(spent, levels) =>
        FirstListsAtMost(s, levels);
        FirstGrows(s, levels);
        GrowsWritten(s, Step(s, e));
      case Hero(level, slots) => GrowsWritten(s, Step(s, e));
      case Ends => MatchStepWritten(s, End);
    }
  }

  /** Over every run each listed pair has its own entry in the build, and the entries stand in the order of the
      pairs. */
  lemma {:induction false} PaidEntriesAreWritten(s: State, events: seq<Event>)
    requires Init(s)
    ensures Written(Run(s, events))
  {
    hide Step, Written;
    if events == [] {
      NothingIsWritten(s);
    } else {
      PaidEntriesAreWritten(s, events[..|events| - 1]);
      StepWritten(Run(s, events[..|events| - 1]), events[|events| - 1]);
    }
  }

  lemma NothingIsWritten(s: State)
    requires Init(s)
    ensures Written(s)
  {
  }

  // ---- nothing that could be paired is left waiting

  /** No rise that waits could be taken by a point that waits. */
  ghost predicate NothingLeft(s: State, now: Moment) {
    forall c | c in s.credits :: !Past(now, c) && forall r | r in s.rises :: !Can(now, c, r)
  }

  lemma MatchLeavesNothing(s: State, c: real, now: Moment)
    requires NothingLeft(s, now)
    ensures NothingLeft(MatchCredit(s, c, now), now)
  {
    hide Take, BestOf, Can, Eligible;
    var best := BestOf(now, c, s.rises, |s.rises|);
    if best.Some? {
      BestInRange(now, c, s.rises, best.value);
      var p := TakeShape(s, c, now, best.value);
      forall r | r in Without(s.rises, best.value) ensures r in s.rises {}
    } else {
      NoneEligible(now, c, s.rises);
      forall r | r in s.rises ensures !Can(now, c, r) { CanIsEligible(now, c, r); }
    }
  }

  lemma {:induction false} PassLeavesNothing(s: State, cs: seq<real>, now: Moment)
    requires NothingLeft(s, now)
    ensures NothingLeft(MatchCredits(s, cs, now), now)
  {
    hide NothingLeft, MatchCredit;
    if cs != [] {
      PassLeavesNothing(s, cs[..|cs| - 1], now);
      MatchLeavesNothing(MatchCredits(s, cs[..|cs| - 1], now), cs[|cs| - 1], now);
    }
  }

  lemma {:induction false} WaitingAreOpen(rises: seq<Rise>, now: Moment)
    ensures forall r | r in Waiting(rises, now) :: r in rises && !Past(now, r.t)
  {
    if rises != [] {
      var n := |rises| - 1;
      WaitingAreOpen(rises[..n], now);
      assert forall r | r in rises[..n] :: r in rises;
    }
  }

  /** After every matching no waiting rise could be taken by a waiting point, and what waits is three seconds old at
      most; at the end nothing waits. */
  lemma NothingIsMissed(s: State, now: Moment)
    ensures var u := MatchStep(s, now);
            && (forall c, r | c in u.credits && r in u.rises :: !Can(now, c, r))
            && (forall c | c in u.credits :: !Past(now, c)) && (forall r | r in u.rises :: !Past(now, r.t))
            && (now == End ==> u.credits == [] && u.rises == [])
  {
    hide MatchCredits, Waiting, Late, Can;
    var start := s.(credits := []);
    PassLeavesNothing(start, s.credits, now);
    WaitingAreOpen(MatchCredits(start, s.credits, now).rises, now);
    var u := MatchStep(s, now);
    if u.credits != [] { assert !Past(now, u.credits[0]); }
    if u.rises != [] { assert !Past(now, u.rises[0].t); }
  }

  // ---- a lone point and a lone rise

  /** Point c and rise r, alone, wait as w left them. */
  ghost predicate BothWait(w: State, u: State, r: Rise, c: real) {
    u.credits == [c] && u.rises == [r] && u.build == w.build && u.prev == w.prev && u.level == w.level
    && u.slots == w.slots && u.spent == w.spent + 1 && u.spentSeen
  }

  /** The rise is in the build, unless it is the bonus and nothing else is open. */
  ghost predicate IsPaid(w: State, u: State, r: Rise) {
    && u.credits == [] && u.rises == [] && u.spent == w.spent + 1 && u.spentSeen
    && u.build == (if r.name == "special_bonus_attributes" && NothingElseOpen(w.level, w.slots) then w.build
       else w.build + [Entry(r.t, r.name, r.level, w.level)])
  }

  lemma MatchOne(s: State, c: real, now: Moment)
    requires s.credits == [c]
    ensures MatchCredits(s.(credits := []), s.credits, now) == MatchCredit(s.(credits := []), c, now)
  {
    hide MatchCredit;
    assert [c][..0] == [];
    NoCredits(s.(credits := []), now);
  }

  lemma OneToChoose(now: Moment, c: real, r: Rise)
    ensures BestOf(now, c, [r], 1) == if Can(now, c, r) then Some(0) else None
  {
    assert BestOf(now, c, [r], 0) == None;
  }

  lemma OneWaits(now: Moment, r: Rise)
    ensures Waiting([r], now) == (if Past(now, r.t) then [] else [r]) && Waiting([], now) == []
  {
    assert [r][..0] == [];
  }

  /** One matching of a lone point and a lone rise within three seconds of each other. */
  lemma MatchTheTwo(w: State, s: State, r: Rise, c: real, t: real)
    requires BothWait(w, s, r, c) && r.level > Prev(w, r.name) && -3.0 <= r.t - c <= 3.0
    ensures t - r.t >= 0.1 ==> IsPaid(w, MatchStep(s, At(t)), r)
    ensures t - r.t < 0.1 && t - c <= 3.0 ==> BothWait(w, MatchStep(s, At(t)), r, c)
  {
    hide BestOf, Take, Waiting, Late, MatchCredits, NothingElseOpen, AbilitiesMaxed;
    var start := s.(credits := []);
    MatchOne(s, c, At(t));
    OneToChoose(At(t), c, r);
    OneWaits(At(t), r);
    if t - r.t >= 0.1 {
      var p := TakeShape(start, c, At(t), 0);
      NothingElse(w.level, w.slots);
      assert [r][..0] + [r][1..] == [];
    }
  }

  lemma NothingToMatch(s: State, now: Moment)
    requires s.credits == [] && s.rises == []
    ensures var u := MatchStep(s, now); u == s.(past := u.past)
  {
    NoCredits(s, now);
  }

  /** A rise alone goes on waiting at its own moment. */
  lemma RiseAlone(s: State, r: Rise)
    requires s.credits == [] && s.rises == []
    ensures var u := MatchStep(Recorded(s, r), At(r.t)); u == s.(rises := [r], past := u.past)
  {
    hide Waiting, Late, MatchCredits;
    NoCredits(Recorded(s, r).(credits := []), At(r.t));
    assert [] + [r] == [r];
    OneWaits(At(r.t), r);
  }

  /** So does a point. */
  lemma PointAlone(s: State, c: real)
    requires s.credits == [c] && s.rises == []
    ensures var u := MatchStep(s, At(c)); u == s.(past := u.past)
  {
    hide BestOf, Take, Waiting, Late, MatchCredits;
    var start := s.(credits := []);
    MatchOne(s, c, At(c));
    NoneToChoose(At(c), c);
    assert start.credits + [c] == [c];
    NoRises(At(c));
  }

  lemma NoRises(now: Moment)
    ensures Waiting([], now) == []
  {
  }

  lemma NoneToChoose(now: Moment, c: real)
    ensures BestOf(now, c, [], 0) == None
  {
  }

  /** A matching that finds no new point. */
  lemma NoNewPoint(w: State, s: State, r: Rise, c: real, n: int, t: real)
    requires r.level > Prev(w, r.name) && -3.0 <= r.t - c <= 3.0 && n <= s.spent
    ensures var u := Step(s, Spends(n, t));
            && (IsPaid(w, s, r) ==> IsPaid(w, u, r))
            && (BothWait(w, s, r, c) && t - r.t >= 0.1 ==> IsPaid(w, u, r))
            && (BothWait(w, s, r, c) && t - r.t < 0.1 && t - c <= 3.0 ==> BothWait(w, u, r, c))
  {
    hide MatchStep, NothingElseOpen;
    assert s.credits + Repeat(t, 0) == s.credits && s.past.points + Repeat(t, 0) == s.past.points;
    var next := Spent(s, n, t);
    if BothWait(w, s, r, c) { MatchTheTwo(w, next, r, c, t); }
    if IsPaid(w, s, r) { NothingToMatch(next, At(t)); }
  }

  lemma {:induction false} EarlyMatchings(w: State, s: State, r: Rise, c: real, early: seq<Event>)
    requires r.level > Prev(w, r.name) && -3.0 <= r.t - c <= 3.0 && (BothWait(w, s, r, c) || IsPaid(w, s, r))
    requires forall e | e in early :: e.Spends? && e.spent <= w.spent + 1 && e.t - r.t < 0.1 && e.t - c <= 3.0
    ensures BothWait(w, Run(s, early), r, c) || IsPaid(w, Run(s, early), r)
  {
    hide Step, NothingElseOpen;
    if early != [] {
      var front, e := early[..|early| - 1], early[|early| - 1];
      assert forall x | x in front :: x in early;
      EarlyMatchings(w, s, r, c, front);
      assert e in early;
      NoNewPoint(w, Run(s, front), r, c, e.spent, e.t);
    }
  }

  /** The rise, then the point. */
  lemma RiseThenPoint(w: State, r: Rise, c: real)
    requires w.spentSeen && w.credits == [] && w.rises == [] && r.level > Prev(w, r.name) && !IsTalent(r.name)
    requires r.t <= c <= r.t + 3.0
    ensures var u := Step(Step(w, Rises(r)), Spends(w.spent + 1, c)); BothWait(w, u, r, c) || IsPaid(w, u, r)
  {
    hide MatchStep, NothingElseOpen, IsTalent;
    RiseAlone(w, r);
    var s := Step(w, Rises(r));
    assert Repeat(c, 1) == [c] && [] + [c] == [c];
    MatchTheTwo(w, Spent(s, w.spent + 1, c), r, c, c);
  }

  /** The point, then the rise. */
  lemma PointThenRise(w: State, r: Rise, c: real)
    requires w.spentSeen && w.credits == [] && w.rises == [] && r.level > Prev(w, r.name) && !IsTalent(r.name)
    requires c <= r.t <= c + 3.0
    ensures BothWait(w, Step(Step(w, Spends(w.spent + 1, c)), Rises(r)), r, c)
  {
    hide MatchStep, NothingElseOpen, IsTalent;
    assert Repeat(c, 1) == [c] && [] + [c] == [c];
    var next := Spent(w, w.spent + 1, c);
    PointAlone(next, c);
    var s := Step(w, Spends(w.spent + 1, c));
    assert [] + [r] == [r];
    MatchTheTwo(w, Recorded(s, r), r, c, r.t);
  }

  /** A point and a rise above the record, within three seconds of each other and alone, in either order: matchings
      less than a tenth of a second after the rise, and no more than three seconds after the point, change nothing; the
      first one later makes the rise an entry of the build, however late it comes. */
  lemma LonePointIsListed(w: State, r: Rise, c: real, opening: seq<Event>, early: seq<Event>, n: int, t: real)
    requires w.spentSeen && w.credits == [] && w.rises == [] && r.level > Prev(w, r.name) && -3.0 <= r.t - c <= 3.0
    requires !("special_bonus_" <= r.name && r.name != "special_bonus_attributes")
    requires (opening == [Rises(r)] + [Spends(w.spent + 1, c)] && r.t <= c)
             || (opening == [Spends(w.spent + 1, c)] + [Rises(r)] && c <= r.t)
    requires forall e | e in early :: e.Spends? && e.spent <= w.spent + 1 && e.t - r.t < 0.1 && e.t - c <= 3.0
    requires n <= w.spent + 1 && t - r.t >= 0.1
    ensures IsPaid(w, Run(Run(Run(w, opening), early), [Spends(n, t)]), r)
  {
    hide Run, Step, NothingElseOpen;
    var one := Run(w, opening);
    if opening == [Rises(r)] + [Spends(w.spent + 1, c)] && r.t <= c {
      RunTwo(w, Rises(r), Spends(w.spent + 1, c));
      RiseThenPoint(w, r, c);
    } else {
      RunTwo(w, Spends(w.spent + 1, c), Rises(r));
      PointThenRise(w, r, c);
    }
    EarlyMatchings(w, one, r, c, early);
    RunJustOne(Run(one, early), Spends(n, t));
    NoNewPoint(w, Run(one, early), r, c, n, t);
  }

  lemma RunJustOne(s: State, e: Event)
    ensures Run(s, [e]) == Step(s, e)
  {
    hide Step;
    assert [e][..0] == [];
  }

  lemma RunTwo(s: State, e: Event, f: Event)
    ensures Run(s, [e] + [f]) == Step(Step(s, e), f)
  {
    hide Step;
    assert ([e] + [f])[..1] == [e];
    RunJustOne(s, e);
  }

  // ---- the listed levels of an ability

  ghost predicate Increasing(build: seq<Entry>, name: string) {
    forall i, j | 0 <= i < j < |build| && build[i].name == name && build[j].name == name ::
        build[i].level < build[j].level
  }

  /** No listed level of the ability is above the one on record. */
  ghost predicate OnRecord(s: State, name: string) {
    forall i | 0 <= i < |s.build| && s.build[i].name == name :: s.build[i].level <= Prev(s, name)
  }

  ghost predicate Climbs(s: State, name: string) {
    Increasing(s.build, name) && OnRecord(s, name)
  }

  lemma AppendClimbs(s: State, n: string, level: int, t: real, name: string)
    requires Climbs(s, name)
    ensures Climbs(AppendUp(s, n, level, t), name)
  {
  }

  /** Whatever level is recorded next, the list stays increasing: exactly when no listed level is above the record. */
  lemma NextEntryIsSafe(s: State, name: string)
    requires Increasing(s.build, name)
    ensures (forall level, t :: Increasing(AppendUp(s, name, level, t).build, name)) <==> OnRecord(s, name)
  {
    if OnRecord(s, name) {
      forall level, t ensures Increasing(AppendUp(s, name, level, t).build, name) {
        AppendClimbs(s, name, level, t, name);
      }
    } else {
      var i :| 0 <= i < |s.build| && s.build[i].name == name && s.build[i].level > Prev(s, name);
      var next := AppendUp(s, name, s.build[i].level, 0.0);
      assert next.build[i] == s.build[i] && next.build[|s.build|].level == s.build[i].level;
      assert !Increasing(next.build, name);
    }
  }

  /** A forced pair that puts the level on record down. */
  ghost predicate Lowers(p: Pair, name: string) {
    p.forced && p.rise.name == name && p.rise.level < p.record
  }

  /** Entry i was listed, then forced pair k put the record below the level at which entry j was listed, no higher. */
  ghost predicate Overtaken(s: State, name: string, k: nat, i: nat, j: nat) {
    && k < |s.past.pairs| && i < j < |s.build| && s.build[i].name == name && s.build[j].name == name
    && i < s.past.pairs[k].at <= j && Lowers(s.past.pairs[k], name)
    && s.past.pairs[k].rise.level < s.build[j].level <= s.build[i].level
  }

  /** Why entry i is above the record: forced pair k put it down. */
  ghost predicate PutDown(s: State, name: string, k: nat, i: nat) {
    && k < |s.past.pairs| && i < s.past.pairs[k].at && Lowers(s.past.pairs[k], name)
    && s.past.pairs[k].rise.level <= Prev(s, name)
  }

  ghost predicate Explained(s: State, name: string) {
    && (forall k | 0 <= k < |s.past.pairs| ::
       s.past.pairs[k].at <= |s.build| && (s.past.pairs[k].forced ==> s.past.pairs[k].rise.name == ATTRIBUTES))
    && (forall i: nat, j: nat | i < j < |s.build| && s.build[i].name == name && s.build[j].name == name
       && s.build[j].level <= s.build[i].level ::
          exists k: nat :: Overtaken(s, name, k, i, j))
    && (forall i: nat | i < |s.build| && s.build[i].name == name && s.build[i].level > Prev(s, name) ::
       exists k: nat :: PutDown(s, name, k, i))
  }

  lemma AppendExplained(s: State, n: string, level: int, t: real, name: string)
    requires Explained(s, name)
    ensures Explained(AppendUp(s, n, level, t), name)
  {
    hide Lowers;
    var u := AppendUp(s, n, level, t);
    if level > Prev(s, n) {
      forall i: nat, j: nat | i < j < |u.build| && u.build[i].name == name && u.build[j].name == name
          && u.build[j].level <= u.build[i].level
        ensures exists k: nat :: Overtaken(u, name, k, i, j)
      {
        if j < |s.build| {
          var k: nat :| Overtaken(s, name, k, i, j);
          assert Overtaken(u, name, k, i, j);
        } else {
          var k: nat :| PutDown(s, name, k, i);
          assert Overtaken(u, name, k, i, j);
        }
      }
      forall i: nat | i < |u.build| && u.build[i].name == name && u.build[i].level > Prev(u, name)
        ensures exists k: nat :: PutDown(u, name, k, i)
      {
        assert u.build[i] == s.build[i];
        var k: nat :| PutDown(s, name, k, i);
        assert PutDown(u, name, k, i);
      }
    }
  }

  /** One more pair; the record stays, or the pair is a forced bonus. */
  lemma PairExplained(s: State, u: State, p: Pair, name: string)
    requires Explained(s, name) && u.build == s.build && u.past.pairs == s.past.pairs + [p]
    requires p.at == |s.build| && (p.forced ==>
             p.rise.name == ATTRIBUTES && p.record == Prev(s, ATTRIBUTES) && Prev(u, ATTRIBUTES) == p.rise.level)
    requires name != ATTRIBUTES || !p.forced ==> Prev(u, name) == Prev(s, name)
    ensures Explained(u, name)
  {
    forall i: nat, j: nat | i < j < |u.build| && u.build[i].name == name && u.build[j].name == name
        && u.build[j].level <= u.build[i].level
      ensures exists k: nat :: Overtaken(u, name, k, i, j)
    {
      var k: nat :| Overtaken(s, name, k, i, j);
      assert Overtaken(u, name, k, i, j);
    }
    forall i: nat | i < |u.build| && u.build[i].name == name && u.build[i].level > Prev(u, name)
      ensures exists k: nat :: PutDown(u, name, k, i)
    {
      if u.build[i].level > Prev(s, name) && Prev(s, name) <= Prev(u, name) {
        var k: nat :| PutDown(s, name, k, i);
        assert PutDown(u, name, k, i);
      } else {
        assert PutDown(u, name, |s.past.pairs|, i);
      }
    }
  }

  lemma TakeExplained(s: State, c: real, now: Moment, i: nat, name: string)
    requires i < |s.rises| && Explained(s, name)
    ensures Explained(Take(s, c, now, i), name)
  {
    hide AbilitiesMaxed, Without, Explained;
    var r := s.rises[i];
    var forced := r.name == ATTRIBUTES && AbilitiesMaxed(s.level, s.slots);
    var p := Pair(c, now, r, s.rises, s.level, s.slots, forced, !forced && r.level > Prev(s, r.name), Prev(s, r.name),
        |s.build|);
    var paired := s.(rises := Without(s.rises, i), past := Paired(s.past, p));
    if forced {
      PairExplained(s, paired.(prev := s.prev[r.name := r.level]), p, name);
    } else {
      PairExplained(s, paired, p, name);
      AppendExplained(paired, r.name, r.level, r.t, name);
    }
  }

  lemma SameExplained(s: State, t: State, name: string)
    requires Explained(s, name) && t.build == s.build && t.past.pairs == s.past.pairs && Prev(t, name) == Prev(s, name)
    ensures Explained(t, name)
  {
    forall i: nat, j: nat, k: nat | Overtaken(s, name, k, i, j) ensures Overtaken(t, name, k, i, j) {}
    forall i: nat, k: nat | PutDown(s, name, k, i) ensures PutDown(t, name, k, i) {}
  }

  lemma MatchCreditExplained(s: State, c: real, now: Moment, name: string)
    requires Explained(s, name)
    ensures Explained(MatchCredit(s, c, now), name)
  {
    hide Take, BestOf, Explained;
    var best := BestOf(now, c, s.rises, |s.rises|);
    if best.Some? {
      BestInRange(now, c, s.rises, best.value);
      TakeExplained(s, c, now, best.value, name);
    } else {
      SameExplained(s, MatchCredit(s, c, now), name);
    }
  }

  lemma {:induction false} MatchCreditsExplained(s: State, cs: seq<real>, now: Moment, name: string)
    requires Explained(s, name)
    ensures Explained(MatchCredits(s, cs, now), name)
  {
    hide Explained, MatchCredit;
    if cs != [] {
      MatchCreditsExplained(s, cs[..|cs| - 1], now, name);
      MatchCreditExplained(MatchCredits(s, cs[..|cs| - 1], now), cs[|cs| - 1], now, name);
    }
  }

  lemma MatchStepExplained(s: State, t: State, now: Moment, name: string)
    requires Explained(s, name) && t.build == s.build && t.past.pairs == s.past.pairs && t.prev == s.prev
    ensures Explained(MatchStep(t, now), name)
  {
    hide MatchCredits, Waiting, Explained;
    var start := t.(credits := []);
    SameExplained(s, start, name);
    MatchCreditsExplained(start, t.credits, now, name);
    SameExplained(MatchCredits(start, t.credits, now), MatchStep(t, now), name);
  }

  lemma {:induction false} LevelsExplained(s: State, f: First, n: nat, name: string)
    requires Explained(s, name)
    ensures Explained(ListLevels(s, f, n), name)
  {
    hide Explained;
    if n > 0 {
      LevelsExplained(s, f, n - 1, name);
      var before := ListLevels(s, f, n - 1);
      AppendExplained(before, f.name, n, f.t, name);
      SameExplained(AppendUp(before, f.name, n, f.t), ListLevels(s, f, n), name);
    }
  }

  lemma {:induction false} FirstExplained(s: State, levels: seq<First>, name: string)
    requires Explained(s, name)
    ensures Explained(ListFirst(s, levels), name)
  {
    hide ListLevels, Explained;
    if levels != [] {
      var n := |levels| - 1;
      FirstExplained(s, levels[..n], name);
      LevelsExplained(ListFirst(s, levels[..n]), levels[n], levels[n].level, name);
    }
  }

  lemma StepExplained(s: State, e: Event, name: string)
    requires Explained(s, name)
    ensures Explained(Step(s, e), name)
  {
    hide MatchStep, ListFirst, Explained, Sum;
    match e {
      case Rises(r) =>
        if r.level > Prev(s, r.name) {
          if s.spentSeen && !IsTalent(r.name) {
            MatchStepExplained(s, Recorded(s, r), At(r.t), name);
          } else {
            AppendExplained(s, r.name, r.level, r.t, name);
            SameExplained(AppendUp(s, r.name, r.level, r.t), Step(s, e), name);
          }
        }
      case Spends(spent, t) =>
        MatchStepExplained(s, Spent(s, spent, t), At(t), name);
      case FirstSeen(spent, levels) =>
        FirstExplained(s, levels, name);
        if !s.spentSeen && spent > 0 && Sum(levels) == spent { SameExplained(ListFirst(s, levels), Step(s, e), name); }
      case Hero(level, slots) => SameExplained(s, Step(s, e), name);
      case Ends => MatchStepExplained(s, s, End, name);
    }
  }

  lemma {:induction false} RunExplained(s: State, events: seq<Event>, name: string)
    requires Init(s)
    ensures Explained(Run(s, events), name)
  {
    hide Step, Explained;
    if events != [] {
      var n := |events| - 1;
      RunExplained(s, events[..n], name);
      StepExplained(Run(s, events[..n]), events[n], name);
    } else {
      assert Explained(s, name) by { NothingToExplain(s, name); }
    }
  }

  lemma NothingToExplain(s: State, name: string)
    requires Init(s)
    ensures Explained(s, name)
  {
  }

  /** Over every run the listed levels of an ability but the attribute bonus strictly increase. A violation of the
      bonus's is always explained by a forced bonus that put the record below a level listed before it, so that a level
      in between was listed after it. */
  lemma ListedLevelsIncrease(s: State, events: seq<Event>, name: string)
    requires Init(s)
    ensures var t := Run(s, events);
            && (Increasing(t.build, name) <==> forall k: nat, i: nat, j: nat :: !Overtaken(t, name, k, i, j))
            && (name != ATTRIBUTES || (forall p | p in t.past.pairs :: !Lowers(p, name)) ==> Climbs(t, name))
  {
    hide Run, Lowers;
    RunExplained(s, events, name);
    var t := Run(s, events);
    if forall k: nat, i: nat, j: nat :: !Overtaken(t, name, k, i, j) {
      forall i: nat, j: nat | i < j < |t.build| && t.build[i].name == name && t.build[j].name == name
        ensures t.build[i].level < t.build[j].level
      {
        EntryExplained(t, name, i, j);
      }
    }
    if name != ATTRIBUTES || forall p | p in t.past.pairs :: !Lowers(p, name) {
      forall k | 0 <= k < |t.past.pairs| ensures !Lowers(t.past.pairs[k], name) { OnlyTheBonus(t, k, name); }
      forall i: nat | i < |t.build| && t.build[i].name == name ensures t.build[i].level <= Prev(t, name) {
        RecordExplained(t, name, i);
      }
    }
  }

  lemma EntryExplained(s: State, name: string, i: nat, j: nat)
    requires Explained(s, name) && i < j < |s.build| && s.build[i].name == name && s.build[j].name == name
    ensures s.build[i].level < s.build[j].level || exists k: nat :: Overtaken(s, name, k, i, j)
  {
  }

  lemma RecordExplained(s: State, name: string, i: nat)
    requires Explained(s, name) && i < |s.build| && s.build[i].name == name
    ensures s.build[i].level <= Prev(s, name) || exists k: nat :: PutDown(s, name, k, i)
  {
  }

  lemma OnlyTheBonus(s: State, k: nat, name: string)
    requires k < |s.past.pairs| && Explained(s, name)
    ensures name != ATTRIBUTES ==> !Lowers(s.past.pairs[k], name)
  {
  }

  /** A forced bonus leaves the record safe exactly when no listed level is above the bonus's. */
  lemma ForcedBonusIsSafe(s: State, c: real, now: Moment, i: nat)
    requires i < |s.rises| && s.rises[i].name == ATTRIBUTES && AbilitiesMaxed(s.level, s.slots)
    ensures OnRecord(Take(s, c, now, i), ATTRIBUTES) <==>
            forall k | 0 <= k < |s.build| && s.build[k].name == ATTRIBUTES :: s.build[k].level <= s.rises[i].level
  {
    hide AbilitiesMaxed, Without;
    var t := Take(s, c, now, i);
    assert t.build == s.build && Prev(t, ATTRIBUTES) == s.rises[i].level;
  }

  // ---- one sighting of the bonus keeps the list increasing

  /** of: the sighting of an ability entity that each rise belongs to. The callers' guard: a sighting's level only
      grows, from 0 at least and at most once in a moment. */
  ghost predicate FromSightings(events: seq<Event>, of: seq<nat>) {
    |of| == |events| && (forall n | 0 <= n < |events| && events[n].Rises? :: events[n].r.level >= 1)
    && forall m, n | 0 <= m < n < |events| && events[m].Rises? && events[n].Rises? && of[m] == of[n] ::
         events[m].r.name == events[n].r.name && events[m].r.level < events[n].r.level && events[m].r.t < events[n].r.t
  }

  function Time(e: Event): Option<real> {
    match e
    case Rises(r) => Some(r.t)
    case Spends(_, t) => Some(t)
    case _ => None
  }

  ghost predicate InTime(events: seq<Event>) {
    forall m, n | 0 <= m < n < |events| && Time(events[m]).Some? && Time(events[n]).Some? ::
      Time(events[m]).value <= Time(events[n]).value
  }

  /** The attribute bonus is never hidden and is in none of the slots of a hero first seen. */
  ghost predicate BonusInPlainSight(events: seq<Event>) {
    && (forall n | 0 <= n < |events| && events[n].Rises? && events[n].r.name == ATTRIBUTES :: !events[n].r.hidden)
    && (forall n | 0 <= n < |events| && events[n].FirstSeen? :: forall f | f in events[n].levels ::
       f.name != ATTRIBUTES)
  }

  /** What the parser's reader sends: the guard holds and time does not go back. */
  ghost predicate Received(events: seq<Event>, of: seq<nat>) {
    FromSightings(events, of) && InTime(events) && BonusInPlainSight(events)
  }

  ghost predicate OneSighting(events: seq<Event>, of: seq<nat>) {
    |of| == |events|
    && forall m, n | 0 <= m < n < |events| && events[m].Rises? && events[n].Rises?
                     && events[m].r.name == ATTRIBUTES && events[n].r.name == ATTRIBUTES :: of[m] == of[n]
  }

  /** No event is later than t; the bonus's rises are below level and before rise. */
  datatype Bound = Bound(t: real, level: int, rise: real)

  ghost predicate Bounds(events: seq<Event>, b: Bound) {
    forall n | 0 <= n < |events| ::
      && (Time(events[n]).Some? ==> Time(events[n]).value <= b.t)
      && (events[n].Rises? && events[n].r.name == ATTRIBUTES ==> events[n].r.level < b.level && events[n].r.t < b.rise)
  }

  /** The highest level listed of the attribute bonus. */
  ghost function Highest(build: seq<Entry>): int {
    if build == [] then 0
    else
      var e := build[|build| - 1];
      var before := Highest(build[..|build| - 1]);
      if e.name == ATTRIBUTES && e.level > before then e.level else before
  }

  lemma {:induction false} HighestBounds(build: seq<Entry>)
    ensures forall i | 0 <= i < |build| && build[i].name == ATTRIBUTES :: build[i].level <= Highest(build)
  {
    if build != [] { HighestBounds(build[..|build| - 1]); }
  }

  /** A waiting bonus that comes too late: a level as high is listed. */
  ghost predicate Stale(s: State, r: Rise) {
    r.name == ATTRIBUTES && r.level <= Highest(s.build)
  }

  /** The waiting bonuses come in the order of their levels. */
  ghost predicate BonusesInOrder(rises: seq<Rise>, b: Bound) {
    && (forall i | 0 <= i < |rises| && rises[i].name == ATTRIBUTES ::
          !rises[i].hidden && rises[i].level < b.level && rises[i].t < b.rise && rises[i].t <= b.t)
    && (forall i, j | 0 <= i < j < |rises| && rises[i].name == ATTRIBUTES && rises[j].name == ATTRIBUTES ::
          rises[i].level < rises[j].level && rises[i].t < rises[j].t)
  }

  ghost predicate Sorted(cs: seq<real>) {
    forall i, j | 0 <= i < j < |cs| :: cs[i] <= cs[j]
  }

  /** What a stale bonus has behind it: it is not above the record, settled, and no point is before it. */
  ghost predicate Harmless(s: State, extra: seq<real>, now: Moment, r: Rise) {
    r.level <= Prev(s, ATTRIBUTES) && Settled(now, r.t) && (forall c | c in s.credits :: r.t <= c)
        && (forall c | c in extra :: r.t <= c)
  }

  /** extra: points whose turn is still to come. */
  ghost predicate Climbing(s: State, extra: seq<real>, now: Moment, b: Bound) {
    && (now.At? ==> b.t <= now.t)
    && Increasing(s.build, ATTRIBUTES) && Highest(s.build) < b.level
    && BonusesInOrder(s.rises, b)
    && Sorted(s.credits + extra) && (forall c | c in s.credits :: c <= b.t) && (forall c | c in extra :: c <= b.t)
    && (forall r | r in s.rises && Stale(s, r) :: Harmless(s, extra, now, r))
  }

  /** The points that had their turn found no rise. */
  ghost predicate Unserved(s: State, now: Moment) {
    forall c, r | c in s.credits && r in s.rises :: StillOpen(now, c) && !Eligible(now, c, r)
  }

  lemma HighestAppend(build: seq<Entry>, e: Entry)
    ensures Highest(build + [e]) == if e.name == ATTRIBUTES && e.level > Highest(build) then e.level else Highest(build)
  {
    assert (build + [e])[..|build|] == build;
  }

  /** An entry that is not a stale bonus keeps the list increasing. */
  lemma AppendIncreases(s: State, n: string, level: int, t: real)
    requires Increasing(s.build, ATTRIBUTES) && (n == ATTRIBUTES && level > Prev(s, n) ==> level > Highest(s.build))
    ensures var u := AppendUp(s, n, level, t);
            && Increasing(u.build, ATTRIBUTES)
            && Highest(u.build) == (if n == ATTRIBUTES && level > Prev(s, n) then level else Highest(s.build))
            && Prev(u, ATTRIBUTES) == (if n == ATTRIBUTES && level > Prev(s, n) then level else Prev(s, ATTRIBUTES))
            && u.credits == s.credits && u.rises == s.rises
  {
    HighestBounds(s.build);
    HighestAppend(s.build, Entry(t, n, level, s.level));
  }

  lemma WithoutInOrder(rises: seq<Rise>, i: nat, b: Bound)
    requires i < |rises| && BonusesInOrder(rises, b)
    ensures BonusesInOrder(Without(rises, i), b)
    ensures forall r | r in Without(rises, i) ::
            r in rises && (r.name == rises[i].name == ATTRIBUTES ==> r.level != rises[i].level)
  {
    var w := Without(rises, i);
    assert forall k | 0 <= k < |w| :: w[k] == rises[if k < i then k else k + 1];
  }

  /** What a point's choice says about the bonuses it passed over. */
  lemma PassedOver(s: State, c: real, extra: seq<real>, now: Moment, b: Bound, i: nat, q: Rise)
    requires Climbing(s, [c] + extra, now, b) && BestOf(now, c, s.rises, |s.rises|) == Some(i)
    requires i < |s.rises| && s.rises[i].name == ATTRIBUTES && q in s.rises && q.name == ATTRIBUTES
    ensures q.level < s.rises[i].level ==> Settled(now, q.t) && q.t <= c
    ensures Stale(s, q) ==> q.level <= s.rises[i].level
  {
    hide BestOf, Highest, Increasing, Sorted;
    var r := s.rises[i];
    var k :| 0 <= k < |s.rises| && s.rises[k] == q;
    assert c in [c] + extra;
    BestIsBest(now, c, s.rises, i, k);
    if k < i { assert q.t < r.t; }
    if k > i { assert r.t < q.t; }
  }

  lemma BestIsBest(now: Moment, c: real, rises: seq<Rise>, i: nat, k: nat)
    requires BestOf(now, c, rises, |rises|) == Some(i) && k < |rises|
    ensures i < |rises| && Eligible(now, c, rises[i]) && (Eligible(now, c, rises[k]) ==> !Better(c, rises[k], rises[i]))
  {
    hide Eligible, Better;
  }

  lemma TakeKeepsClimbing(s: State, c: real, extra: seq<real>, now: Moment, b: Bound, i: nat)
    requires Climbing(s, [c] + extra, now, b) && Unserved(s, now) && BestOf(now, c, s.rises, |s.rises|) == Some(i)
    ensures var t := Take(s, c, now, i); Climbing(t, extra, now, b) && Unserved(t, now)
  {
    hide AbilitiesMaxed, BestOf, Without, BonusesInOrder, Highest, Increasing, Settled, StillOpen, Sorted;
    BestInRange(now, c, s.rises, i);
    var r := s.rises[i];
    var t := Take(s, c, now, i);
    WithoutInOrder(s.rises, i, b);
    NextTurn(s.credits, c, extra);
    var forced := r.name == ATTRIBUTES && AbilitiesMaxed(s.level, s.slots);
    assert r in s.rises;
    if !forced {
      AppendIncreases(s.(rises := Without(s.rises, i), past := t.past), r.name, r.level, r.t);
    }
    LevelInOrder(s.rises, b, i);
    forall q | q in t.rises && Stale(t, q) ensures Harmless(t, extra, now, q) {
      assert q in s.rises;
      if r.name == ATTRIBUTES {
        PassedOver(s, c, extra, now, b, i, q);
        if !Stale(s, q) {
          BeforeUnserved(s, now, b, q);
          NotAfter(c, extra, q.t, s.credits);
        }
      }
    }
  }

  lemma LevelInOrder(rises: seq<Rise>, b: Bound, i: nat)
    requires i < |rises| && BonusesInOrder(rises, b)
    ensures rises[i].name == ATTRIBUTES ==> rises[i].level < b.level
  {
  }

  lemma NextTurn(credits: seq<real>, c: real, extra: seq<real>)
    requires Sorted(credits + ([c] + extra))
    ensures Sorted(credits + extra) && forall x | x in extra :: x in [c] + extra
  {
    var all := credits + ([c] + extra);
    assert forall k | 0 <= k < |credits + extra| :: (credits + extra)[k] == all[if k < |credits| then k else k + 1];
  }

  lemma NotAfter(c: real, extra: seq<real>, t: real, credits: seq<real>)
    requires Sorted(credits + ([c] + extra)) && t <= c
    ensures forall x | x in extra :: t <= x
  {
    var all := credits + ([c] + extra);
    forall x | x in extra ensures t <= x {
      var k :| 0 <= k < |extra| && extra[k] == x;
      assert all[|credits|] == c && all[|credits| + 1 + k] == x;
    }
  }

  /** A settled rise that a waiting point did not take is long before the point. */
  lemma BeforeUnserved(s: State, now: Moment, b: Bound, q: Rise)
    requires Unserved(s, now) && q in s.rises && q.name == ATTRIBUTES && Settled(now, q.t)
    requires BonusesInOrder(s.rises, b) && (now.At? ==> b.t <= now.t)
    ensures forall c | c in s.credits :: q.t <= c
  {
    var k :| 0 <= k < |s.rises| && s.rises[k] == q;
    forall c | c in s.credits ensures q.t <= c {
      assert StillOpen(now, c) && !Eligible(now, c, q);
    }
  }

  lemma MatchKeepsClimbing(s: State, c: real, extra: seq<real>, now: Moment, b: Bound)
    requires Climbing(s, [c] + extra, now, b) && Unserved(s, now)
    ensures var t := MatchCredit(s, c, now); Climbing(t, extra, now, b) && Unserved(t, now)
  {
    hide Take, BestOf, BonusesInOrder, Increasing, Highest, Settled, StillOpen, Sorted, Prev;
    var best := BestOf(now, c, s.rises, |s.rises|);
    if best.Some? {
      TakeKeepsClimbing(s, c, extra, now, b, best.value);
    } else {
      NoneEligible(now, c, s.rises);
      assert s.credits + [c] + extra == s.credits + ([c] + extra);
      NextTurn(s.credits, c, extra);
      assert c in [c] + extra;
      var t := MatchCredit(s, c, now);
      forall q | q in t.rises && Stale(t, q) ensures Harmless(t, extra, now, q) {
        assert Stale(s, q) && Harmless(s, [c] + extra, now, q);
        assert Prev(t, ATTRIBUTES) == Prev(s, ATTRIBUTES) by { SamePrev(s, t); }
      }
    }
  }

  lemma SamePrev(s: State, t: State)
    requires s.prev == t.prev
    ensures forall name :: Prev(s, name) == Prev(t, name)
  {
  }

  lemma NoneEligible(now: Moment, c: real, rises: seq<Rise>)
    requires BestOf(now, c, rises, |rises|) == None
    ensures forall r | r in rises :: !Eligible(now, c, r)
  {
  }

  lemma {:induction false} PassKeepsClimbing(s: State, cs: seq<real>, n: nat, now: Moment, b: Bound)
    requires Climbing(s, cs, now, b) && Unserved(s, now) && n <= |cs|
    ensures var t := MatchCredits(s, cs[..n], now); Climbing(t, cs[n..], now, b) && Unserved(t, now)
  {
    hide Climbing, Unserved, MatchCredit;
    if n == 0 {
      NoCredits(s, now);
      assert cs[..0] == [] && cs[0..] == cs;
    } else {
      PassKeepsClimbing(s, cs, n - 1, now, b);
      MatchCreditsStep(s, cs, n - 1, now);
      assert cs[n - 1..] == [cs[n - 1]] + cs[n..];
      MatchKeepsClimbing(MatchCredits(s, cs[..n - 1], now), cs[n - 1], cs[n..], now, b);
    }
  }

  lemma {:induction false} WaitingInOrder(rises: seq<Rise>, now: Moment, b: Bound)
    requires BonusesInOrder(rises, b)
    ensures BonusesInOrder(Waiting(rises, now), b) && (now.End? ==> Waiting(rises, now) == [])
    ensures forall r | r in Waiting(rises, now) :: r in rises
  {
    if rises != [] {
      var n := |rises| - 1;
      WaitingInOrder(rises[..n], now, b);
      WaitingStep(rises, n, now);
      assert rises[..n + 1] == rises;
      var w := Waiting(rises[..n], now);
      forall k | 0 <= k < |w| && w[k].name == ATTRIBUTES && rises[n].name == ATTRIBUTES
        ensures w[k].level < rises[n].level && w[k].t < rises[n].t
      {
        assert w[k] in rises[..n];
      }
    }
  }

  /** Between the events: what the next matching starts from. */
  ghost predicate Between(s: State, b: Bound) {
    Climbing(s, [], At(b.t), b)
  }

  lemma MatchStepKeepsClimbing(s: State, now: Moment, b: Bound)
    requires Between(s, b) && (now == At(b.t) || now == End)
    ensures Between(MatchStep(s, now), b)
  {
    hide MatchCredits, Waiting, BonusesInOrder, Increasing, Highest, Stale;
    var start := s.(credits := []);
    assert s.credits + [] == s.credits == [] + s.credits;
    SamePrev(s, start);
    forall r | r in start.rises && Stale(start, r) ensures Harmless(start, s.credits, now, r) {
      assert Stale(s, r) by { SameStale(s, start, r); }
    }
    PassKeepsClimbing(start, s.credits, |s.credits|, now, b);
    assert s.credits[..|s.credits|] == s.credits && s.credits[|s.credits|..] == [];
    var t := MatchCredits(start, s.credits, now);
    WaitingInOrder(t.rises, now, b);
    var u := MatchStep(s, now);
    SamePrev(t, u);
    forall r | r in u.rises && Stale(u, r) ensures Harmless(u, [], At(b.t), r) {
      assert Stale(t, r) by { SameStale(t, u, r); }
    }
  }

  lemma SameStale(s: State, t: State, r: Rise)
    requires s.build == t.build
    ensures Stale(s, r) == Stale(t, r)
  {
  }

  lemma {:induction false} LevelsOfOthers(s: State, f: First, n: nat)
    requires f.name != ATTRIBUTES && Increasing(s.build, ATTRIBUTES)
    ensures SameBonus(s, ListLevels(s, f, n))
  {
    hide Increasing, Highest, AppendUp;
    if n > 0 {
      LevelsOfOthers(s, f, n - 1);
      var before := ListLevels(s, f, n - 1);
      AppendIncreases(before, f.name, n, f.t);
      SamePrev(AppendUp(before, f.name, n, f.t), ListLevels(s, f, n));
    }
  }

  ghost predicate SameBonus(s: State, t: State) {
    Increasing(t.build, ATTRIBUTES) && Highest(t.build) == Highest(s.build)
        && Prev(t, ATTRIBUTES) == Prev(s, ATTRIBUTES)
    && t.credits == s.credits && t.rises == s.rises
  }

  lemma {:induction false} FirstOfOthers(s: State, levels: seq<First>)
    requires (forall f | f in levels :: f.name != ATTRIBUTES) && Increasing(s.build, ATTRIBUTES)
    ensures SameBonus(s, ListFirst(s, levels))
  {
    hide Increasing, Highest, ListLevels, Prev;
    if levels != [] {
      var n := |levels| - 1;
      assert levels[n] in levels && forall f | f in levels[..n] :: f in levels;
      FirstOfOthers(s, levels[..n]);
      LevelsOfOthers(ListFirst(s, levels[..n]), levels[n], levels[n].level);
    }
  }

  lemma SameKeepsClimbing(s: State, t: State, b: Bound)
    requires Between(s, b) && SameBonus(s, t)
    ensures Between(t, b)
  {
    hide BonusesInOrder, Highest, Increasing, Prev;
    forall r | r in t.rises && Stale(t, r) ensures Harmless(t, [], At(b.t), r) { assert Stale(s, r); }
  }

  lemma Looser(s: State, a: Bound, b: Bound)
    requires Between(s, a) && a.t <= b.t && a.level <= b.level && a.rise <= b.rise
    ensures Between(s, b)
  {
    hide Highest, Increasing, Prev;
    forall r | r in s.rises && Stale(s, r) ensures Harmless(s, [], At(b.t), r) { assert Harmless(s, [], At(a.t), r); }
  }

  lemma RiseKeepsClimbing(s: State, r: Rise, b: Bound)
    requires Inv(s) && r.t == b.t && (r.name == ATTRIBUTES ==> !r.hidden && r.level < b.level && r.t < b.rise)
    requires Between(s, if r.name == ATTRIBUTES then Bound(b.t, r.level, r.t) else b)
    ensures Between(Step(s, Rises(r)), b)
  {
    hide MatchStep, Increasing, Highest, AppendUp, Fair;
    var a := if r.name == ATTRIBUTES then Bound(b.t, r.level, r.t) else b;
    if r.level > Prev(s, r.name) {
      if s.spentSeen && !IsTalent(r.name) {
        var next := Recorded(s, r);
        SamePrev(s, next);
        forall q | q in next.rises && Stale(next, q) ensures Harmless(next, [], At(b.t), q) {
          assert q in s.rises && Stale(s, q);
        }
        assert BonusesInOrder(next.rises, b);
        MatchStepKeepsClimbing(next, At(r.t), b);
      } else {
        var t := AppendUp(s, r.name, r.level, r.t);
        AppendIncreases(s, r.name, r.level, r.t);
        SamePrev(t, Step(s, Rises(r)));
        if r.name == ATTRIBUTES {
          assert s.rises == [];
        } else {
          SameKeepsClimbing(s, Step(s, Rises(r)), b);
        }
      }
    } else {
      Looser(s, a, b);
    }
  }

  lemma SpendKeepsClimbing(s: State, spent: int, t: real, b: Bound)
    requires t == b.t && Between(s, b)
    ensures Between(Step(s, Spends(spent, t)), b)
  {
    hide MatchStep, Increasing, Highest;
    var next := Spent(s, spent, t);
    SamePrev(s, next);
    assert s.credits + [] == s.credits && next.credits + [] == next.credits;
    LaterPoints(s.credits, t, if spent > s.spent then spent - s.spent else 0);
    forall q | q in next.rises && Stale(next, q) ensures Harmless(next, [], At(b.t), q) {
      assert Stale(s, q) && Harmless(s, [], At(b.t), q);
      var k :| 0 <= k < |s.rises| && s.rises[k] == q;
    }
    MatchStepKeepsClimbing(next, At(t), b);
  }

  lemma LaterPoints(cs: seq<real>, t: real, n: nat)
    requires Sorted(cs) && forall c | c in cs :: c <= t
    ensures Sorted(cs + Repeat(t, n)) && forall c | c in cs + Repeat(t, n) :: c in cs || c == t
  {
    var all := cs + Repeat(t, n);
    forall i, j | 0 <= i < j < |all| ensures all[i] <= all[j] {
      if i < |cs| { assert cs[i] in cs; }
    }
  }

  lemma StepKeepsClimbing(s: State, e: Event, b: Bound)
    requires Inv(s)
    requires Time(e).Some? ==> Time(e).value == b.t
    requires e.Rises? && e.r.name == ATTRIBUTES ==> !e.r.hidden && e.r.level < b.level && e.r.t < b.rise
    requires e.FirstSeen? ==> forall f | f in e.levels :: f.name != ATTRIBUTES
    requires Between(s, if e.Rises? && e.r.name == ATTRIBUTES then Bound(b.t, e.r.level, e.r.t) else b)
    ensures Between(Step(s, e), b)
  {
    hide RiseStep, SpendStep, MatchStep, ListFirst, Sum, Fair, Climbing, Increasing, Highest;
    match e {
      case Rises(r) => RiseKeepsClimbing(s, r, b);
      case Spends(spent, t) => SpendKeepsClimbing(s, spent, t, b);
      case FirstSeen(spent, levels) =>
        IncreasingBetween(s, b);
        FirstOfOthers(s, levels);
        if !s.spentSeen && spent > 0 && Sum(levels) == spent { SameKeepsClimbing(s, Step(s, e), b); }
      case Hero(level, slots) =>
        IncreasingBetween(s, b);
        SameKeepsClimbing(s, Step(s, e), b);
      case Ends => MatchStepKeepsClimbing(s, End, b);
    }
  }

  lemma IncreasingBetween(s: State, b: Bound)
    requires Between(s, b)
    ensures Increasing(s.build, ATTRIBUTES)
  {
  }

  lemma {:induction false} RunClimbs(s: State, events: seq<Event>, of: seq<nat>, b: Bound)
    requires Init(s) && Received(events, of) && OneSighting(events, of) && Bounds(events, b) && b.level > 0
    ensures Between(Run(s, events), b)
  {
    hide Step, Inv, Climbing;
    if events == [] {
      Nothing(s, b);
    } else {
      var n := |events| - 1;
      var front, e := events[..n], events[n];
      var t := if Time(e).Some? then Time(e).value else b.t;
      var c := Bound(t, b.level, b.rise);
      var a := if e.Rises? && e.r.name == ATTRIBUTES then Bound(t, e.r.level, e.r.t) else c;
      RunKeepsInv(s, front);
      RunClimbs(s, front, of[..n], a);
      StepKeepsClimbing(Run(s, front), e, c);
      Looser(Run(s, events), c, b);
    }
  }

  lemma Nothing(s: State, b: Bound)
    requires Init(s) && b.level > 0
    ensures Between(s, b)
  {
  }

  lemma {:induction false} SomeBound(events: seq<Event>) returns (b: Bound)
    ensures Bounds(events, b) && b.level > 0
  {
    if events == [] {
      b := Bound(0.0, 1, 0.0);
    } else {
      var e := events[|events| - 1];
      b := SomeBound(events[..|events| - 1]);
      if Time(e).Some? && Time(e).value > b.t { b := b.(t := Time(e).value); }
      if e.Rises? && e.r.level >= b.level { b := b.(level := e.r.level + 1); }
      if e.Rises? && e.r.t >= b.rise { b := b.(rise := e.r.t + 1.0); }
    }
  }

  /** Over every run with the guard in which the bonus is seen on one entity only, its listed levels strictly increase:
      a bonus that waits while a higher level is listed never gets ahead again. */
  lemma OneSightingIncreases(s: State, events: seq<Event>, of: seq<nat>)
    requires Init(s) && Received(events, of) && OneSighting(events, of)
    ensures Increasing(Run(s, events).build, ATTRIBUTES)
  {
    hide Run, Increasing, Received, OneSighting;
    var b := SomeBound(events);
    RunClimbs(s, events, of, b);
    IncreasingBetween(Run(s, events), b);
  }

  // ---- two sightings do not: a hero and his double

  /** A new level in a slot is announced by a rise of its ability before the points of that scan are read. */
  ghost predicate SlotsAnnounced(events: seq<Event>, names: seq<string>) {
    |names| == 6
    && forall m, n, i | 0 <= m < n < |events| && events[m].Hero? && events[n].Hero? && 0 <= i < 6
       && events[m].slots[i] < events[n].slots[i] ::
         exists k :: m < k < |events| && AnnouncedAt(events, names, n, i, k)
  }

  /** Event k announces what scan n shows in slot i. */
  ghost predicate AnnouncedAt(events: seq<Event>, names: seq<string>, n: int, i: int, k: int)
    requires |names| == 6
  {
    && 0 <= n < |events| && 0 <= k < |events| && events[n].Hero? && 0 <= i < 6
    && Announces(events[k], names[i], events[n].slots[i]) && forall x | n < x < k :: !events[x].Spends?
  }

  /** The points spent are those in the basic and ultimate slots at least, and the hero's level at most. */
  ghost predicate PointsAddUp(events: seq<Event>) {
    forall m, n | 0 <= m < n < |events| && events[m].Hero? && events[n].Spends?
        && (forall x | m < x < n :: !events[x].Hero?) ::
      events[m].slots[0] + events[m].slots[1] + events[m].slots[2]
          + events[m].slots[5] <= events[n].spent <= events[m].level
  }

  ghost predicate Announces(e: Event, name: string, level: int) {
    e.Rises? && e.r.name == name && e.r.level == level
  }

  const FLUX := "arc_warden_flux"
  const NAMES := [FLUX, "arc_warden_magnetic_field", "arc_warden_spark_wraith", "arc_warden_scepter", "generic_hidden",
      "arc_warden_tempest_double"]
  const OPEN: Slots := [3, 4, 4, 0, 0, 2]
  const MAXED: Slots := [4, 4, 4, 0, 0, 2]
  const SLOTS := [First(NAMES[0], 3, 90.0), First(NAMES[1], 4, 90.0), First(NAMES[2], 4, 90.0),
      First(NAMES[5], 2, 90.0)]

  function Bonus(level: int, t: real): Rise {
    Rise(ATTRIBUTES, level, t, false)
  }

  function Flux(t: real): Rise {
    Rise(FLUX, 4, t, false)
  }

  const SEEN := [Hero(17, OPEN), FirstSeen(13, SLOTS), Spends(13, 90.0)]

  /** The hero takes the bonus twice, his double has it once; a point for the last basic level takes the leftover first
      bonus by force; after the next hero level the double catches up. */
  const TWICE := SEEN + [Rises(Bonus(1, 100.0))] + [Rises(Bonus(1, 100.05))] + [Rises(Bonus(2, 100.1))]
      + [Spends(15, 100.2)]
                 + [Hero(17, MAXED)] + [Rises(Flux(101.0))] + [Spends(16, 101.0)]
                 + [Hero(18, MAXED)] + [Rises(Flux(102.0))] + [Rises(Bonus(2, 102.0))] + [Spends(18, 102.5)]

  /** 1: the hero's bonus, 2: his double's, 3 and 4: their Flux. */
  const SIGHTINGS: seq<nat> := [0, 0, 0, 1, 2, 1, 0, 0, 3, 0, 0, 4, 2, 0]

  /** Everything but the history: no point waits. */
  ghost predicate Stands(s: State, rises: seq<Rise>, bonus: int, flux: int, build: seq<Entry>, spent: nat, level: nat,
                         slots: Slots)
  {
    && s.credits == [] && s.rises == rises && Prev(s, ATTRIBUTES) == bonus && Prev(s, FLUX) == flux && s.build == build
    && s.spent == spent && s.spentSeen && s.level == level && s.slots == slots
  }

  lemma {:induction false} AllWait(rises: seq<Rise>, now: Moment)
    requires forall r | r in rises :: StillOpen(now, r.t)
    ensures Waiting(rises, now) == rises && Late(rises, now) == []
  {
    if rises != [] {
      var n := |rises| - 1;
      AllWait(rises[..n], now);
      assert rises == rises[..n] + [rises[n]];
    }
  }

  lemma RunOne(s: State, events: seq<Event>, e: Event)
    ensures Run(s, events + [e]) == Step(Run(s, events), e)
  {
    hide Step;
    assert (events + [e])[..|events|] == events;
  }

  lemma HeroStands(s: State, rises: seq<Rise>, bonus: int, flux: int, build: seq<Entry>, spent: nat, l: nat, sl: Slots,
                   level: nat, slots: Slots)
    requires Stands(s, rises, bonus, flux, build, spent, l, sl)
    ensures Stands(Step(s, Hero(level, slots)), rises, bonus, flux, build, spent, level, slots)
  {
  }

  lemma RiseStands(s: State, rises: seq<Rise>, bonus: int, flux: int, build: seq<Entry>, spent: nat, level: nat,
                   slots: Slots, r: Rise)
    requires Stands(s, rises, bonus, flux, build, spent, level, slots) && r.name in {ATTRIBUTES, FLUX}
    requires r.level > (if r.name == FLUX then flux else bonus) && forall q | q in rises :: StillOpen(At(r.t), q.t)
    ensures Stands(Step(s, Rises(r)), rises + [r], bonus, flux, build, spent, level, slots)
  {
    hide StillOpen, Waiting;
    var next := s.(rises := rises + [r], past := s.past.(recorded := s.past.recorded + [r]));
    assert FLUX[0] != TALENT[0];
    NoCredits(next, At(r.t));
    assert StillOpen(At(r.t), r.t) by { JustNow(r.t); }
    AllWait(rises + [r], At(r.t));
  }

  lemma JustNow(t: real)
    ensures StillOpen(At(t), t)
  {
  }

  /** The choice is the eligible rise that no eligible one is better than, the first of equals. */
  lemma Chooses(now: Moment, c: real, rises: seq<Rise>, i: nat)
    requires i < |rises| && Eligible(now, c, rises[i])
    requires forall j | 0 <= j < |rises| && Eligible(now, c, rises[j]) ::
             !Better(c, rises[j], rises[i]) && (j < i ==> Better(c, rises[i], rises[j]))
    ensures BestOf(now, c, rises, |rises|) == Some(i)
  {
    hide Eligible, Better;
    var best := BestOf(now, c, rises, |rises|);
    assert best.Some?;
  }

  /** What becomes of the standing when rise i is taken. */
  lemma TakeStands(s: State, rises: seq<Rise>, bonus: int, flux: int, build: seq<Entry>, spent: nat, level: nat,
                   slots: Slots, c: real, t: real, i: nat)
    requires Stands(s, rises, bonus, flux, build, spent, level, slots) && i < |rises|
             && rises[i].name in {ATTRIBUTES, FLUX}
    ensures var r := rises[i];
            var forced := r.name == ATTRIBUTES && AbilitiesMaxed(level, slots);
            var listed := !forced && r.level > (if r.name == FLUX then flux else bonus);
            Stands(Take(s, c, At(t), i), Without(rises, i),
                   if r.name == ATTRIBUTES && (forced || listed) then r.level else bonus,
                   if r.name == FLUX && listed then r.level else flux,
                   if listed then build + [Entry(r.t, r.name, r.level, level)] else build, spent, level, slots)
  {
    hide AbilitiesMaxed, Without;
  }

  /** n points spent at once, before they are matched. */
  function Paid(s: State, n: nat, t: real): State {
    s.(credits := Repeat(t, n), spent := s.spent + n, past := s.past.(points := s.past.points + Repeat(t, n)))
  }

  lemma Spend(s: State, n: nat, t: real)
    requires s.credits == [] && s.spentSeen
    ensures Step(s, Spends(s.spent + n, t)) == MatchStep(Paid(s, n, t), At(t))
  {
    hide MatchStep;
    assert s.credits + Repeat(t, n) == Repeat(t, n);
  }

  lemma Matched(s: State, cs: seq<real>, t: real, u: State)
    requires s.credits == cs && u == MatchCredits(s.(credits := []), cs, At(t)) && forall r | r in u.rises ::
             StillOpen(At(t), r.t)
    ensures MatchStep(s, At(t)) == u
  {
    hide StillOpen;
    AllWait(u.rises, At(t));
    assert u.past.losses + [] == u.past.losses;
  }

  /** One new point that takes rise i. */
  lemma PointTakes(s: State, t: real, i: nat)
    requires s.credits == [] && s.spentSeen && i < |s.rises| && BestOf(At(t), t, s.rises, |s.rises|) == Some(i)
    requires forall r | r in s.rises :: StillOpen(At(t), r.t)
    ensures Step(s, Spends(s.spent + 1, t)) == Take(Paid(s, 1, t).(credits := []), t, At(t), i)
  {
    hide BestOf, Take, StillOpen;
    var next := Paid(s, 1, t).(credits := []);
    assert Repeat(t, 1) == [t] && [t][..0] == [];
    NoCredits(next, At(t));
    Leaves(next, t, i);
    Spend(s, 1, t);
    Matched(Paid(s, 1, t), [t], t, Take(next, t, At(t), i));
  }

  /** Two at once: i, then j of what is left. */
  lemma PointsTake(s: State, t: real, i: nat, j: nat)
    requires s.credits == [] && s.spentSeen && i < |s.rises| && BestOf(At(t), t, s.rises, |s.rises|) == Some(i)
    requires var rest := Without(s.rises, i); j < |rest| && BestOf(At(t), t, rest, |rest|) == Some(j)
    requires forall r | r in s.rises :: StillOpen(At(t), r.t)
    ensures var one := Take(Paid(s, 2, t).(credits := []), t, At(t), i);
            one.rises == Without(s.rises, i) && Step(s, Spends(s.spent + 2, t)) == Take(one, t, At(t), j)
  {
    hide BestOf, Take, StillOpen;
    var next := Paid(s, 2, t).(credits := []);
    assert Repeat(t, 2) == [t, t] && [t, t][..1] == [t] && [t][..0] == [];
    NoCredits(next, At(t));
    Leaves(next, t, i);
    var one := Take(next, t, At(t), i);
    assert MatchCredits(next, [t], At(t)) == one;
    Leaves(one, t, j);
    Spend(s, 2, t);
    Matched(Paid(s, 2, t), [t, t], t, Take(one, t, At(t), j));
  }

  lemma Leaves(s: State, t: real, i: nat)
    requires i < |s.rises|
    ensures var u := Take(s, t, At(t), i);
            u.rises == Without(s.rises, i) && u.credits == s.credits && forall r | r in u.rises :: r in s.rises
  {
    hide AbilitiesMaxed;
  }

  lemma {:induction false} PrevAfterLevels(s: State, f: First, n: nat, name: string)
    requires Prev(s, f.name) >= 0
    ensures Prev(ListLevels(s, f, n), name) == if name == f.name && n > Prev(s, name) then n else Prev(s, name)
    ensures var t := ListLevels(s, f, n);
            t.rises == s.rises && t.credits == s.credits && t.level == s.level && t.slots == s.slots
  {
    if n > 0 { PrevAfterLevels(s, f, n - 1, name); }
  }

  lemma Names()
    ensures FLUX != NAMES[1] && FLUX != NAMES[2] && FLUX != NAMES[5] && NAMES[1] != NAMES[2] && NAMES[1] != NAMES[5]
            && NAMES[2] != NAMES[5]
    ensures forall i | 0 <= i < 6 && i != 4 :: NAMES[i] != ATTRIBUTES
  {
    assert |NAMES[0]| == 15 && |NAMES[1]| == 25 && |NAMES[2]| == 23 && |NAMES[5]| == 25;
    assert NAMES[1][11] != NAMES[5][11];
    assert NAMES[0][0] == NAMES[1][0] == NAMES[2][0] == NAMES[3][0] == NAMES[5][0] == 'a' && ATTRIBUTES[0] == 's';
  }

  lemma SlotsListed(a: State)
    requires a.prev == map[]
    ensures Sum(SLOTS) == 13
    ensures var b := ListFirst(a, SLOTS);
            && Prev(b, ATTRIBUTES) == 0 && Prev(b, FLUX) == 3
            && b.rises == a.rises && b.credits == a.credits && b.level == a.level && b.slots == a.slots
  {
    hide ListLevels;
    Names();
    assert SLOTS[..3][..2] == SLOTS[..2] && SLOTS[..2][..1] == SLOTS[..1] && SLOTS[..1][..0] == [];
    assert Sum(SLOTS[..1]) == 3 && Sum(SLOTS[..2]) == 7 && Sum(SLOTS[..3]) == 11;
    var b1 := ListLevels(a, SLOTS[0], 3);
    var b2 := ListLevels(b1, SLOTS[1], 4);
    var b3 := ListLevels(b2, SLOTS[2], 4);
    assert ListFirst(a, SLOTS[..1]) == b1 && ListFirst(a, SLOTS[..2]) == b2 && ListFirst(a, SLOTS[..3]) == b3;
    PrevAfterLevels(a, SLOTS[0], 3, NAMES[1]);
    PrevAfterLevels(a, SLOTS[0], 3, NAMES[2]);
    PrevAfterLevels(a, SLOTS[0], 3, NAMES[5]);
    PrevAfterLevels(b1, SLOTS[1], 4, NAMES[2]);
    PrevAfterLevels(b1, SLOTS[1], 4, NAMES[5]);
    PrevAfterLevels(b2, SLOTS[2], 4, NAMES[5]);
    Others(a, b1, b2, b3, ATTRIBUTES);
    Others(a, b1, b2, b3, FLUX);
  }

  lemma Others(a: State, b1: State, b2: State, b3: State, name: string)
    requires name == ATTRIBUTES || name == FLUX
    requires b1 == ListLevels(a, SLOTS[0], 3) && b2 == ListLevels(b1, SLOTS[1], 4) && b3 == ListLevels(b2, SLOTS[2], 4)
    requires Prev(a, name) == 0 && Prev(a, SLOTS[0].name) >= 0 && Prev(b1, SLOTS[1].name) >= 0
             && Prev(b2, SLOTS[2].name) >= 0 && Prev(b3, SLOTS[3].name) >= 0
    ensures var b := ListLevels(b3, SLOTS[3], 2);
            && Prev(b, name) == (if name == FLUX then 3 else 0)
            && b.rises == a.rises && b.credits == a.credits && b.level == a.level && b.slots == a.slots
  {
    hide ListLevels, Prev;
    Names();
    PrevAfterLevels(a, SLOTS[0], 3, name);
    PrevAfterLevels(b1, SLOTS[1], 4, name);
    PrevAfterLevels(b2, SLOTS[2], 4, name);
    PrevAfterLevels(b3, SLOTS[3], 2, name);
  }

  lemma Begins(s: State) returns (build: seq<Entry>)
    requires Init(s)
    ensures Stands(Run(s, SEEN), [], 0, 3, build, 13, 17, OPEN) && build == Run(s, SEEN).build
  {
    hide ListFirst, Sum;
    var a := Step(s, Hero(17, OPEN));
    SlotsListed(a);
    var c := Step(a, FirstSeen(13, SLOTS));
    Spend(c, 0, 90.0);
    assert Repeat(90.0, 0) == [];
    NoCredits(Paid(c, 0, 90.0), At(90.0));
    Matched(Paid(c, 0, 90.0), [], 90.0, Paid(c, 0, 90.0));
    RunOne(s, [], Hero(17, OPEN));
    RunOne(s, [Hero(17, OPEN)], FirstSeen(13, SLOTS));
    RunOne(s, [Hero(17, OPEN), FirstSeen(13, SLOTS)], Spends(13, 90.0));
    assert [] + [Hero(17, OPEN)] == [Hero(17, OPEN)];
    assert [Hero(17, OPEN)] + [FirstSeen(13, SLOTS)] == [Hero(17, OPEN), FirstSeen(13, SLOTS)];
    assert [Hero(17, OPEN), FirstSeen(13, SLOTS)] + [Spends(13, 90.0)] == SEEN;
    build := Run(s, SEEN).build;
  }

  lemma PaidStands(s: State, rises: seq<Rise>, bonus: int, flux: int, build: seq<Entry>, spent: nat, level: nat,
                   slots: Slots, n: nat, t: real)
    requires Stands(s, rises, bonus, flux, build, spent, level, slots)
    ensures Stands(Paid(s, n, t).(credits := []), rises, bonus, flux, build, spent + n, level, slots)
  {
  }

  const B1 := Bonus(1, 100.0)
  const D1 := Bonus(1, 100.05)
  const B2 := Bonus(2, 100.1)
  const D2 := Bonus(2, 102.0)
  const F1 := Flux(101.0)
  const F2 := Flux(102.0)

  /** The hero's second bonus is listed; the double's first goes with the other point. */
  lemma BothBonuses(s: State, build: seq<Entry>)
    requires Stands(s, [B1, D1, B2], 0, 3, build, 13, 17, OPEN)
    ensures Stands(Step(s, Spends(15, 100.2)), [B1], 2, 3, build + [Entry(100.1, ATTRIBUTES, 2, 17)], 15, 17, OPEN)
  {
    hide BestOf, Take, Step;
    var t := 100.2;
    Chooses(At(t), t, [B1, D1, B2], 2);
    assert Without([B1, D1, B2], 2) == [B1, D1] && Without([B1, D1], 1) == [B1];
    Chooses(At(t), t, [B1, D1], 1);
    PointsTake(s, t, 2, 1);
    assert !AbilitiesMaxed(17, OPEN) by { assert OPEN[0] == 3; }
    PaidStands(s, [B1, D1, B2], 0, 3, build, 13, 17, OPEN, 2, t);
    TakeStands(Paid(s, 2, t).(credits := []), [B1, D1, B2], 0, 3, build, 15, 17, OPEN, t, t, 2);
    TakeStands(Take(Paid(s, 2, t).(credits := []), t, At(t), 2), [B1, D1], 2, 3,
        build + [Entry(100.1, ATTRIBUTES, 2, 17)], 15, 17, OPEN, t, t, 1);
  }

  /** The point for the last basic level finds the hero's first bonus: all is maxed, so it is forced. */
  lemma LeftoverIsForced(s: State, build: seq<Entry>)
    requires Stands(s, [B1, F1], 2, 3, build, 15, 17, MAXED)
    ensures Stands(Step(s, Spends(16, 101.0)), [F1], 1, 3, build, 16, 17, MAXED)
  {
    hide BestOf, Take, Step;
    var t := 101.0;
    Chooses(At(t), t, [B1, F1], 0);
    assert Without([B1, F1], 0) == [F1];
    PointTakes(s, t, 0);
    assert AbilitiesMaxed(17, MAXED);
    PaidStands(s, [B1, F1], 2, 3, build, 15, 17, MAXED, 1, t);
    TakeStands(Paid(s, 1, t).(credits := []), [B1, F1], 2, 3, build, 16, 17, MAXED, t, t, 0);
  }

  /** The double's rises are listed: the bonus's second level again. */
  lemma DoubleIsListed(s: State, build: seq<Entry>)
    requires Stands(s, [F1, F2, D2], 1, 3, build, 16, 18, MAXED)
    ensures Step(s, Spends(18, 102.5)).build == build + [Entry(102.0, FLUX, 4, 18)] + [Entry(102.0, ATTRIBUTES, 2, 18)]
  {
    hide BestOf, Take, Step;
    var t := 102.5;
    assert FLUX[0] != ATTRIBUTES[0];
    Chooses(At(t), t, [F1, F2, D2], 1);
    assert Without([F1, F2, D2], 1) == [F1, D2] && Without([F1, D2], 1) == [F1];
    Chooses(At(t), t, [F1, D2], 1);
    PointsTake(s, t, 1, 1);
    assert !AbilitiesMaxed(18, MAXED);
    PaidStands(s, [F1, F2, D2], 1, 3, build, 16, 18, MAXED, 2, t);
    TakeStands(Paid(s, 2, t).(credits := []), [F1, F2, D2], 1, 3, build, 18, 18, MAXED, t, t, 1);
    TakeStands(Take(Paid(s, 2, t).(credits := []), t, At(t), 1), [F1, D2], 1, 4, build + [Entry(102.0, FLUX, 4, 18)],
        18, 18, MAXED, t, t, 1);
  }

  lemma TwiceRuns(s: State)
    requires Init(s)
    ensures Run(s, TWICE).build == Run(s, SEEN).build + [Entry(100.1, ATTRIBUTES, 2, 17)] + [Entry(102.0, FLUX, 4, 18)]
            + [Entry(102.0, ATTRIBUTES, 2, 18)]
  {
    hide Step, Run, Stands, Init;
    var build := Begins(s);
    var listed := build + [Entry(100.1, ATTRIBUTES, 2, 17)];
    var e1 := SEEN + [Rises(B1)];
    var e2 := e1 + [Rises(D1)];
    var e3 := e2 + [Rises(B2)];
    var e4 := e3 + [Spends(15, 100.2)];
    var e5 := e4 + [Hero(17, MAXED)];
    var e6 := e5 + [Rises(F1)];
    var e7 := e6 + [Spends(16, 101.0)];
    var e8 := e7 + [Hero(18, MAXED)];
    var e9 := e8 + [Rises(F2)];
    var e10 := e9 + [Rises(D2)];
    RunOne(s, SEEN, Rises(B1));
    RunOne(s, e1, Rises(D1));
    RunOne(s, e2, Rises(B2));
    RunOne(s, e3, Spends(15, 100.2));
    RunOne(s, e4, Hero(17, MAXED));
    RunOne(s, e5, Rises(F1));
    RunOne(s, e6, Spends(16, 101.0));
    RunOne(s, e7, Hero(18, MAXED));
    RunOne(s, e8, Rises(F2));
    RunOne(s, e9, Rises(D2));
    RunOne(s, e10, Spends(18, 102.5));
    assert FLUX[0] != ATTRIBUTES[0];
    RiseStands(Run(s, SEEN), [], 0, 3, build, 13, 17, OPEN, B1);
    assert [] + [B1] == [B1] && [B1] + [D1] == [B1, D1] && [B1, D1] + [B2] == [B1, D1, B2];
    RiseStands(Run(s, e1), [B1], 0, 3, build, 13, 17, OPEN, D1);
    RiseStands(Run(s, e2), [B1, D1], 0, 3, build, 13, 17, OPEN, B2);
    BothBonuses(Run(s, e3), build);
    HeroStands(Run(s, e4), [B1], 2, 3, listed, 15, 17, OPEN, 17, MAXED);
    RiseStands(Run(s, e5), [B1], 2, 3, listed, 15, 17, MAXED, F1);
    assert [B1] + [F1] == [B1, F1] && [F1] + [F2] == [F1, F2] && [F1, F2] + [D2] == [F1, F2, D2];
    LeftoverIsForced(Run(s, e6), listed);
    HeroStands(Run(s, e7), [F1], 1, 3, listed, 16, 17, MAXED, 18, MAXED);
    RiseStands(Run(s, e8), [F1], 1, 3, listed, 16, 18, MAXED, F2);
    RiseStands(Run(s, e9), [F1, F2], 1, 3, listed, 16, 18, MAXED, D2);
    DoubleIsListed(Run(s, e10), listed);
  }

  function TwiceAt(n: nat): Event {
    if n == 0 then Hero(17, OPEN) else if n == 1 then FirstSeen(13, SLOTS) else if n == 2 then Spends(13, 90.0)
    else if n == 3 then Rises(B1) else if n == 4 then Rises(D1) else if n == 5 then Rises(B2)
        else if n == 6 then Spends(15, 100.2)
    else if n == 7 then Hero(17, MAXED) else if n == 8 then Rises(F1) else if n == 9 then Spends(16, 101.0)
    else if n == 10 then Hero(18, MAXED) else if n == 11 then Rises(F2) else if n == 12 then Rises(D2)
        else Spends(18, 102.5)
  }

  function SightingAt(n: nat): nat {
    if n == 3 || n == 5 then 1 else if n == 4 || n == 12 then 2 else if n == 8 then 3 else if n == 11 then 4 else 0
  }

  lemma TwiceEvents()
    ensures |TWICE| == |SIGHTINGS| == 14
    ensures forall n: nat | n < 14 :: TWICE[n] == TwiceAt(n) && SIGHTINGS[n] == SightingAt(n)
  {
    assert TWICE == [Hero(17, OPEN), FirstSeen(13, SLOTS), Spends(13, 90.0), Rises(B1), Rises(D1), Rises(B2),
           Spends(15, 100.2),
                     Hero(17, MAXED), Rises(F1), Spends(16, 101.0), Hero(18, MAXED), Rises(F2), Rises(D2),
                         Spends(18, 102.5)];
    assert SIGHTINGS[0] == 0 && SIGHTINGS[1] == 0 && SIGHTINGS[2] == 0 && SIGHTINGS[6] == 0 && SIGHTINGS[7] == 0
           && SIGHTINGS[9] == 0 && SIGHTINGS[10] == 0 && SIGHTINGS[13] == 0;
  }

  /** The clock of the run, in hundredths of a second after the hero was seen. */
  function ClockAt(n: nat): int {
    if n <= 2 then 0 else if n == 3 then 1000 else if n == 4 then 1005 else if n == 5 then 1010 else if n <= 7 then 1020
    else if n <= 10 then 1100 else if n <= 12 then 1200 else 1250
  }

  lemma TwiceAtShape(n: nat)
    requires n < 14
    ensures var e := TwiceAt(n);
            && (Time(e).Some? ==> Time(e).value == 90.0 + ClockAt(n) as real / 100.0)
            && (e.Hero? <==> n == 0 || n == 7 || n == 10)
            && (e.Hero? ==> e.slots == (if n == 0 then OPEN else MAXED) && e.level == if n == 10 then 18 else 17)
            && (e.Spends? <==> n == 2 || n == 6 || n == 9 || n == 13)
            && (e.Spends? ==> e.spent == if n == 2 then 13 else if n == 6 then 15 else if n == 9 then 16 else 18)
            && (e.Rises? ==> SightingAt(n) > 0 && !e.r.hidden && e.r.level >= 1)
            && (e.Rises? ==> e.r.name == if SightingAt(n) <= 2 then ATTRIBUTES else FLUX)
            && (e.FirstSeen? ==> e.levels == SLOTS)
  {
  }

  lemma TwiceIsReceived(events: seq<Event>, of: seq<nat>)
    requires |events| == |of| == 14 && forall n: nat | n < 14 :: events[n] == TwiceAt(n) && of[n] == SightingAt(n)
    ensures Received(events, of)
  {
    hide TwiceAt, FromSightings, InTime;
    forall f | f in SLOTS ensures f.name != ATTRIBUTES { Names(); }
    forall n: nat | n < 14 ensures events[n].FirstSeen? ==> events[n].levels == SLOTS { TwiceAtShape(n); }
    forall n: nat | n < 14 ensures events[n].Rises? ==> !events[n].r.hidden { TwiceAtShape(n); }
    TwiceInTime(events);
    TwiceFromSightings(events, of);
  }

  lemma TwiceInTime(events: seq<Event>)
    requires |events| == 14 && forall n: nat | n < 14 :: events[n] == TwiceAt(n)
    ensures InTime(events)
  {
    hide TwiceAt, SightingAt;
    forall m: nat, n: nat | m < n < 14 && Time(events[m]).Some? && Time(events[n]).Some?
      ensures Time(events[m]).value <= Time(events[n]).value
    {
      TwiceAtShape(m);
      TwiceAtShape(n);
    }
  }

  lemma TwiceFromSightings(events: seq<Event>, of: seq<nat>)
    requires |events| == |of| == 14 && forall n: nat | n < 14 :: events[n] == TwiceAt(n) && of[n] == SightingAt(n)
    ensures FromSightings(events, of)
  {
    hide TwiceAt, ClockAt, SightingAt;
    forall n: nat | n < 14 ensures events[n].Rises? ==> events[n].r.level >= 1 { TwiceAtShape(n); }
    forall m: nat, n: nat | m < n < 14 && events[m].Rises? && events[n].Rises? && of[m] == of[n]
      ensures events[m].r.name == events[n].r.name && events[m].r.level < events[n].r.level
              && events[m].r.t < events[n].r.t
    {
      TwiceAtShape(m);
      TwiceAtShape(n);
      SameSighting(m, n);
    }
  }

  lemma SameSighting(m: nat, n: nat)
    requires m < n < 14 && SightingAt(m) == SightingAt(n) > 0
    ensures TwiceAt(m).Rises? && TwiceAt(n).Rises? && TwiceAt(m).r.level < TwiceAt(n).r.level
            && TwiceAt(m).r.t < TwiceAt(n).r.t
  {
    assert (m == 3 && n == 5) || (m == 4 && n == 12);
  }

  /** Of the three scans only the first shows less than a later one, in the first slot. */
  lemma LaterScan(m: nat, n: nat, i: nat)
    requires m < n < 14 && TwiceAt(m).Hero? && TwiceAt(n).Hero? && i < 6 && TwiceAt(m).slots[i] < TwiceAt(n).slots[i]
    ensures m == 0 && n >= 7 && i == 0 && TwiceAt(n).slots[i] == 4
  {
    hide TwiceAt, ClockAt, SightingAt;
    TwiceAtShape(m);
    TwiceAtShape(n);
    OnlyTheFirst(i);
  }

  lemma TwiceAnnounces(events: seq<Event>, names: seq<string>)
    requires |events| == 14 && forall n: nat | n < 14 :: events[n] == TwiceAt(n)
    requires |names| == 6 && Announces(events[8], names[0], 4)
    ensures SlotsAnnounced(events, names)
  {
    hide TwiceAt, Announces;
    forall m, n, i | 0 <= m < n < |events| && events[m].Hero? && events[n].Hero? && 0 <= i < 6
        && events[m].slots[i] < events[n].slots[i]
      ensures exists k :: m < k < |events| && AnnouncedAt(events, names, n, i, k)
    {
      LaterScan(m, n, i);
      assert AnnouncedAt(events, names, n, i, 8);
    }
  }

  lemma TwiceAddsUp(events: seq<Event>)
    requires |events| == 14 && forall n: nat | n < 14 :: events[n] == TwiceAt(n)
    ensures PointsAddUp(events)
  {
    hide TwiceAt;
    TwiceAtShape(7);
    TwiceAtShape(10);
    forall m: nat, n: nat | m < n < 14 && events[m].Hero? && events[n].Spends?
        && (forall x | m < x < n :: !events[x].Hero?)
      ensures events[m].slots[0] + events[m].slots[1] + events[m].slots[2]
              + events[m].slots[5] <= events[n].spent <= events[m].level
    {
      TwiceAtShape(m);
      TwiceAtShape(n);
      assert m < 7 ==> n <= 7;
      assert m < 10 ==> n <= 10;
    }
  }

  lemma OnlyTheFirst(i: int)
    requires 0 <= i < 6
    ensures OPEN[i] == if i == 0 then 3 else MAXED[i]
    ensures MAXED[0] == 4
  {
  }

  /** The same level of the bonus is listed twice: its first listing, a forced bonus below it, and the double's rise. */
  lemma ForcedBonusListsTwice(s: State)
    requires Init(s)
    ensures Received(TWICE, SIGHTINGS) && SlotsAnnounced(TWICE, NAMES) && PointsAddUp(TWICE)
    ensures var build := Run(s, TWICE).build;
            && build == Run(s, SEEN).build + [Entry(100.1, ATTRIBUTES, 2, 17)] + [Entry(102.0, FLUX, 4, 18)]
               + [Entry(102.0, ATTRIBUTES, 2, 18)]
            && !Increasing(build, ATTRIBUTES)
  {
    hide Run, Received, SlotsAnnounced, PointsAddUp;
    TwiceEvents();
    TwiceIsReceived(TWICE, SIGHTINGS);
    assert TWICE[8] == Rises(F1);
    TwiceAnnounces(TWICE, NAMES);
    TwiceAddsUp(TWICE);
    TwiceRuns(s);
    var build, n := Run(s, TWICE).build, |Run(s, SEEN).build|;
    assert build[n] == Entry(100.1, ATTRIBUTES, 2, 17) && build[n + 2] == Entry(102.0, ATTRIBUTES, 2, 18);
  }

  // ---- how many sightings it takes

  /** The sightings of the attribute bonus. */
  ghost function BonusSightings(events: seq<Event>, of: seq<nat>): set<nat>
    requires |of| == |events|
  {
    set n | 0 <= n < |events| && events[n].Rises? && events[n].r.name == ATTRIBUTES :: of[n]
  }

  ghost predicate ListsTwice(build: seq<Entry>, name: string) {
    exists i, j :: 0 <= i < j < |build| && build[i].name == name && build[j].name == name
        && build[i].level == build[j].level
  }

  /** A run with the guard and at most n sightings of the bonus. */
  ghost predicate ReceivedFrom(n: nat, events: seq<Event>, of: seq<nat>) {
    Received(events, of) && |of| == |events| && |BonusSightings(events, of)| <= n
  }

  lemma AtMostOneSighting(events: seq<Event>, of: seq<nat>)
    requires |of| == |events| && |BonusSightings(events, of)| <= 1
    ensures OneSighting(events, of)
  {
    forall m, n | 0 <= m < n < |events| && events[m].Rises? && events[n].Rises?
                  && events[m].r.name == ATTRIBUTES && events[n].r.name == ATTRIBUTES ensures of[m] == of[n]
    {
      assert of[m] in BonusSightings(events, of) && of[n] in BonusSightings(events, of);
      SubsetSize({of[m], of[n]}, BonusSightings(events, of));
    }
  }

  lemma TwiceHasTwoSightings(events: seq<Event>, of: seq<nat>)
    requires |events| == |of| == 14 && forall n: nat | n < 14 :: events[n] == TwiceAt(n) && of[n] == SightingAt(n)
    ensures |BonusSightings(events, of)| <= 2
  {
    hide TwiceAt, ClockAt;
    forall x | x in BonusSightings(events, of) ensures x in {1, 2} {
      var n :| 0 <= n < |events| && events[n].Rises? && events[n].r.name == ATTRIBUTES && of[n] == x;
      TwiceAtShape(n);
      assert FLUX[0] != ATTRIBUTES[0];
    }
    SubsetSize(BonusSightings(events, of), {1, 2});
  }

  /** A run with the guard can list a level of the attribute bonus twice, or out of order at all, if and only if the
      bonus may be seen on two entities or more. */
  lemma TwoSightingsDecide(s: State, n: nat)
    requires Init(s)
    ensures (exists events, of :: ReceivedFrom(n, events, of) && ListsTwice(Run(s, events).build, ATTRIBUTES)) <==>
            n >= 2
    ensures (exists events, of :: ReceivedFrom(n, events, of) && !Increasing(Run(s, events).build, ATTRIBUTES)) <==>
            n >= 2
  {
    hide Run, Received, OneSighting, Init, SlotsAnnounced, PointsAddUp;
    forall events, of | ReceivedFrom(n, events, of) && n < 2
      ensures Increasing(Run(s, events).build, ATTRIBUTES) && !ListsTwice(Run(s, events).build, ATTRIBUTES)
    {
      AtMostOneSighting(events, of);
      OneSightingIncreases(s, events, of);
    }
    if n >= 2 {
      ForcedBonusListsTwice(s);
      TwiceEvents();
      TwiceHasTwoSightings(TWICE, SIGHTINGS);
      var build, k := Run(s, TWICE).build, |Run(s, SEEN).build|;
      assert build[k] == Entry(100.1, ATTRIBUTES, 2, 17) && build[k + 2] == Entry(102.0, ATTRIBUTES, 2, 18);
      assert ListsTwice(build, ATTRIBUTES);
      assert ReceivedFrom(n, TWICE, SIGHTINGS);
    }
  }
}
