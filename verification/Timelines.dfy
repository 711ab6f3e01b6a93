/** Change-only timelines: the inventory (wide.go, recordSlot) and the town portal scroll (main.go, recordTP). */
module Timelines {
  import opened Rounding
  import opened Wrappers

  function Abs(x: real): real {
    if x < 0.0 then -x else x
  }

  // ---- the inventory

  /** A row: from t on the slot holds the item; cdEnd is the end of its cooldown, 0.0 when it is ready. */
  datatype Row = Row(t: real, slot: nat, item: string, cdEnd: real)

  /** What a read of a slot finds; cdLeft: the cooldown left. */
  datatype Read = Read(t: real, slot: nat, item: string, cdLeft: real)

  datatype Slot = Slot(item: string, cdEnd: real)

  function EndOf(r: Read): real {
    if r.cdLeft > 0.0 then Tenth(r.t + r.cdLeft) else 0.0
  }

  /** The last row of a slot: what a reader of the timeline believes. */
  ghost function Last(rows: seq<Row>, slot: nat): Option<Slot> {
    if rows == [] then None
    else
      var r := rows[|rows| - 1];
      if r.slot == slot then Some(Slot(r.item, r.cdEnd)) else Last(rows[..|rows| - 1], slot)
  }

  /** Nothing worth a row: the same item, and no new cooldown; or a slot empty from the start. */
  predicate Unchanged(known: Option<Slot>, r: Read) {
    match known
    case Some(prev) => prev.item == r.item && (EndOf(r) == 0.0 || Abs(EndOf(r) - prev.cdEnd) <= 1.0)
    case None => r.item == ""
  }

  function After(rows: seq<Row>, known: Option<Slot>, r: Read): seq<Row> {
    if Unchanged(known, r) then rows else rows + [Row(Tenth(r.t), r.slot, r.item, EndOf(r))]
  }

  ghost function Replay(seen: seq<Read>): seq<Row> {
    if seen == [] then []
    else
      var before := Replay(seen[..|seen| - 1]);
      After(before, Last(before, seen[|seen| - 1].slot), seen[|seen| - 1])
  }

  class Inventory {
    var rows: seq<Row>
    var inv: map<nat, Slot>

    constructor ()
      ensures Valid() && rows == []
    {
      rows, inv := [], map[];
    }

    /** The map remembers the last row of every slot. */
    ghost predicate Valid()
      reads this
    {
      forall s: nat :: Last(rows, s) == if s in inv then Some(inv[s]) else None
    }

    method RecordSlot(t: real, slot: nat, item: string, cdLeft: real)
      requires Valid()
      modifies this
      ensures Valid()
      ensures rows == After(old(rows), Last(old(rows), slot), Read(t, slot, item, cdLeft))
    {
      hide Tenth, Last;
      var cdEnd := 0.0;
      if cdLeft > 0.0 {
        cdEnd := Tenth(t + cdLeft);
      }
      if slot in inv && inv[slot].item == item {
        if cdEnd == 0.0 || Abs(cdEnd - inv[slot].cdEnd) <= 1.0 {
          return;
        }
      }
      if slot !in inv && item == "" {
        return;
      }
      inv := inv[slot := Slot(item, cdEnd)];
      ghost var before := rows;
      rows := rows + [Row(Tenth(t), slot, item, cdEnd)];
      forall s: nat {
        LastAppend(before, Row(Tenth(t), slot, item, cdEnd), s);
      }
    }
  }

  method RecordAll(seen: seq<Read>) returns (rows: seq<Row>)
    ensures rows == Replay(seen)
  {
    hide After, Last;
    var w := new Inventory();
    for i := 0 to |seen|
      invariant w.Valid() && w.rows == Replay(seen[..i])
    {
      assert seen[..i + 1][..i] == seen[..i];
      w.RecordSlot(seen[i].t, seen[i].slot, seen[i].item, seen[i].cdLeft);
    }
    assert seen[..|seen|] == seen;
    rows := w.rows;
  }

  // ---- what the rows tell

  /** The believed cooldown fits a read: cooling down, the end within a second; ready, no end still to come. */
  predicate Fits(known: Option<Slot>, r: Read) {
    match known
    case None => r.cdLeft <= 0.0
    case Some(s) =>
      if r.cdLeft > 0.0 then s.cdEnd != 0.0 && Abs(s.cdEnd - EndOf(r)) <= 1.0 else s.cdEnd == 0.0 || s.cdEnd <= r.t
  }

  /** The item reads ready while the recorded end of its cooldown is still to come. */
  predicate ResetEarly(known: Option<Slot>, r: Read) {
    r.cdLeft <= 0.0 && known.Some? && known.value.item == r.item && known.value.cdEnd != 0.0 && known.value.cdEnd > r.t
  }

  /** A cooldown that ends so near the horn that its end is taken for none. */
  predicate EndsAtHorn(known: Option<Slot>, r: Read) {
    r.cdLeft > 0.0
    && match known
       case None => r.item == "" || EndOf(r) == 0.0
       case Some(prev) =>
         if prev.item != r.item then EndOf(r) == 0.0
         else if EndOf(r) == 0.0 then prev.cdEnd == 0.0 || Abs(prev.cdEnd) > 1.0
         else prev.cdEnd == 0.0 && Abs(EndOf(r)) <= 1.0
  }

  lemma LastAfter(rows: seq<Row>, r: Read)
    ensures var known := Last(rows, r.slot);
            Last(After(rows, known, r), r.slot) == if Unchanged(known, r) then known else Some(Slot(r.item, EndOf(r)))
    ensures forall s: nat | s != r.slot :: Last(After(rows, Last(rows, r.slot), r), s) == Last(rows, s)
  {
    hide EndOf, Unchanged;
    var row := Row(Tenth(r.t), r.slot, r.item, EndOf(r));
    assert (rows + [row])[..|rows|] == rows;
  }

  /** At every read the timeline's item is the one read, and its cooldown fits unless it was reset early or ends at
      the horn, and then it does not. */
  lemma ReplayFits(seen: seq<Read>, i: nat)
    requires i < |seen|
    ensures var known := Last(Replay(seen[..i]), seen[i].slot);
            var now := Last(Replay(seen[..i + 1]), seen[i].slot);
            && seen[i].item == (if now.Some? then now.value.item else "")
            && (Fits(now, seen[i]) <==> !ResetEarly(known, seen[i]) && !EndsAtHorn(known, seen[i]))
  {
    hide EndOf;
    assert seen[..i + 1][..i] == seen[..i];
    LastAfter(Replay(seen[..i]), seen[i]);
    NoEnd(seen[i]);
  }

  lemma NoEnd(r: Read)
    ensures r.cdLeft <= 0.0 ==> EndOf(r) == 0.0
  {
  }

  /** From one second past the horn on only an early reset is lost. */
  lemma LateReadsFit(seen: seq<Read>, i: nat)
    requires i < |seen| && seen[i].t > 1.05 && seen[i].item != ""
    ensures var known := Last(Replay(seen[..i]), seen[i].slot);
            Fits(Last(Replay(seen[..i + 1]), seen[i].slot), seen[i]) <==> !ResetEarly(known, seen[i])
  {
    ReplayFits(seen, i);
    TenthIsNear(seen[i].t + seen[i].cdLeft);
  }

  /** A refreshed item: its row still shows the cooldown that was cut short. */
  lemma EarlyResetIsLost()
    ensures var seen := [Read(10.0, 0, "item_blink", 12.0), Read(15.0, 0, "item_blink", 0.0)];
            Last(Replay(seen), 0) == Some(Slot("item_blink", 22.0)) && !Fits(Last(Replay(seen), 0), seen[1])
  {
    var seen := [Read(10.0, 0, "item_blink", 12.0), Read(15.0, 0, "item_blink", 0.0)];
    assert seen[..1] == [seen[0]] && seen[..1][..0] == [] && seen[..2] == seen;
    assert Tenth(22.0) == 22.0;
    LastAfter([], seen[0]);
    assert Replay(seen[..1]) == After([], None, seen[0]);
    LastAfter(Replay(seen[..1]), seen[1]);
  }

  /** The reads of a replay: from the horn on, and an empty slot has no cooldown. */
  ghost predicate FromTheHorn(seen: seq<Read>) {
    forall j | 0 <= j < |seen| :: seen[j].t >= 0.0 && (seen[j].item == "" ==> seen[j].cdLeft <= 0.0)
  }

  /** A cooldown ending in the first second: none is on record for the item that would pass for it, or its own end
      rounds to the horn. */
  predicate LostAtHorn(known: Option<Slot>, r: Read) {
    r.cdLeft > 0.0 && EndOf(r) <= 1.0
    && if known.Some? && known.value.item == r.item
       then known.value.cdEnd == 0.0 || (EndOf(r) == 0.0 && known.value.cdEnd > 1.0)
       else EndOf(r) == 0.0
  }

  lemma {:induction false} EndsAfterHorn(seen: seq<Read>, slot: nat)
    requires FromTheHorn(seen)
    ensures var known := Last(Replay(seen), slot); known.Some? ==> known.value.cdEnd >= 0.0
  {
    hide EndOf, Unchanged;
    if seen != [] {
      var n := |seen| - 1;
      EndsAfterHorn(seen[..n], slot);
      LastAfter(Replay(seen[..n]), seen[n]);
      EndIsAfter(seen[n]);
    }
  }

  lemma EndIsAfter(r: Read)
    requires r.t >= 0.0
    ensures EndOf(r) >= 0.0
  {
  }

  /** Over the reads of a replay the cooldown fits unless it was reset early or ends in the first second unnoticed. */
  lemma GameReadsFit(seen: seq<Read>, i: nat)
    requires FromTheHorn(seen) && i < |seen|
    ensures var known := Last(Replay(seen[..i]), seen[i].slot);
            Fits(Last(Replay(seen[..i + 1]), seen[i].slot), seen[i]) <==>
            !ResetEarly(known, seen[i]) && !LostAtHorn(known, seen[i])
  {
    hide EndOf;
    ReplayFits(seen, i);
    EndsAfterHorn(seen[..i], seen[i].slot);
    EndIsAfter(seen[i]);
  }

  /** An item that goes on cooldown for half a second right after the horn: its row still says that it is ready. */
  lemma EndAtHornIsLost()
    ensures var seen := [Read(0.0, 0, "item_blink", 0.0), Read(0.2, 0, "item_blink", 0.5)];
            FromTheHorn(seen) && Last(Replay(seen), 0) == Some(Slot("item_blink", 0.0))
                && !Fits(Last(Replay(seen), 0), seen[1])
  {
    var seen := [Read(0.0, 0, "item_blink", 0.0), Read(0.2, 0, "item_blink", 0.5)];
    assert seen[..1] == [seen[0]] && seen[..1][..0] == [] && seen[..2] == seen;
    assert Tenth(0.2 + 0.5) == 0.7;
    LastAfter([], seen[0]);
    assert Replay(seen[..1]) == After([], None, seen[0]);
    LastAfter(Replay(seen[..1]), seen[1]);
  }

  /** No row repeats what the slot's row before it says. */
  lemma {:induction false} RowsAreNews(seen: seq<Read>, j: nat)
    requires j < |Replay(seen)|
    ensures var row := Replay(seen)[j];
            match Last(Replay(seen)[..j], row.slot)
            case None => row.item != ""
            case Some(prev) => prev.item != row.item || (row.cdEnd != 0.0 && Abs(row.cdEnd - prev.cdEnd) > 1.0)
  {
    hide EndOf, Last;
    var n := |seen| - 1;
    var before := Replay(seen[..n]);
    assert before <= Replay(seen);
    if j < |before| {
      RowsAreNews(seen[..n], j);
      assert Replay(seen)[..j] == before[..j];
    } else {
      assert Replay(seen)[..j] == before;
    }
  }

  // ---- reading the timeline by its stamps

  ghost function UpTo(rows: seq<Row>, t: real): seq<Row> {
    if rows == [] then []
    else if rows[|rows| - 1].t <= t then UpTo(rows[..|rows| - 1], t) + [rows[|rows| - 1]]
    else UpTo(rows[..|rows| - 1], t)
  }

  ghost predicate InTime(seen: seq<Read>) {
    forall i, j | 0 <= i < j < |seen| :: seen[i].t <= seen[j].t
  }

  lemma {:induction false} StampsInTime(seen: seq<Read>, t: real)
    requires InTime(seen) && forall i | 0 <= i < |seen| :: seen[i].t <= t
    ensures forall k | 0 <= k < |Replay(seen)| :: Replay(seen)[k].t <= Tenth(t)
  {
    hide Tenth, Last, EndOf, Unchanged;
    if seen != [] {
      var n := |seen| - 1;
      StampsInTime(seen[..n], t);
      TenthMonotone(seen[n].t, t);
    }
  }

  lemma {:induction false} AllUpTo(rows: seq<Row>, t: real)
    requires forall k | 0 <= k < |rows| :: rows[k].t <= t
    ensures UpTo(rows, t) == rows
  {
    if rows != [] {
      AllUpTo(rows[..|rows| - 1], t);
    }
  }

  lemma UpToAppend(rows: seq<Row>, row: Row, t: real)
    ensures UpTo(rows + [row], t) == if row.t <= t then UpTo(rows, t) + [row] else UpTo(rows, t)
  {
    assert (rows + [row])[..|rows|] == rows;
  }

  lemma LastAppend(rows: seq<Row>, row: Row, slot: nat)
    ensures Last(rows + [row], slot) == if row.slot == slot then Some(Slot(row.item, row.cdEnd)) else Last(rows, slot)
  {
    assert (rows + [row])[..|rows|] == rows;
  }

  /** Looking up the rows stamped up to a read gives what the read left, when the slot's later reads are in later
      tenths of a second. */
  lemma {:induction false} LookUp(seen: seq<Read>, i: nat, n: nat)
    requires InTime(seen) && i < n <= |seen|
    requires forall j | i < j < |seen| && seen[j].slot == seen[i].slot :: Tenth(seen[j].t) > Tenth(seen[i].t)
    ensures Last(UpTo(Replay(seen[..n]), Tenth(seen[i].t)), seen[i].slot) == Last(Replay(seen[..i + 1]), seen[i].slot)
  {
    hide Tenth, Last, EndOf, Unchanged, UpTo;
    var t := Tenth(seen[i].t);
    if n == i + 1 {
      StampsInTime(seen[..n], seen[i].t);
      AllUpTo(Replay(seen[..n]), t);
    } else {
      LookUp(seen, i, n - 1);
      var r, before := seen[n - 1], Replay(seen[..n - 1]);
      assert seen[..n][..n - 1] == seen[..n - 1];
      var row := Row(Tenth(r.t), r.slot, r.item, EndOf(r));
      if !Unchanged(Last(before, r.slot), r) {
        UpToAppend(before, row, t);
        LastAppend(UpTo(before, t), row, seen[i].slot);
      }
    }
  }

  // ---- the town portal scroll

  /** travel: the level of the boots of travel in place of the scroll. */
  datatype TPState = TPState(t: real, charges: int, cdEnd: real, travel: int)

  function ShownEnd(end: real, t: real): real {
    if end > t then Tenth(end) else 0.0
  }

  predicate SameCooldown(cdEnd: real, last: real, t: real) {
    Abs(cdEnd - last) <= 1.0 || (cdEnd == 0.0 && last <= t + 1.0)
  }

  /** A read of the scroll slot: the cooldown end on record, the charges and the travel level then. */
  datatype TPRead = TPRead(t: real, charges: int, end: real, travel: int)

  /** The row has the read's charges and travel level, and the end of its cooldown within a second, or run out by one
      second after the read. */
  predicate Shows(row: TPState, r: TPRead) {
    row.charges == r.charges && row.travel == r.travel && SameCooldown(ShownEnd(r.end, r.t), row.cdEnd, r.t)
  }

  /** Row b says something else than row a. */
  predicate News(a: TPState, b: TPState) {
    a.charges != b.charges || a.travel != b.travel || Abs(b.cdEnd - a.cdEnd) > 1.0
  }

  class Scroll {
    var timeline: seq<TPState>
    var end: real                    // TPCdEnd
    var travel: int

    constructor ()
      ensures timeline == [] && end == 0.0 && travel == 0
    {
      timeline, end, travel := [], 0.0, 0;
    }

    /** The last row shows the state read; a row that repeats the one before is not written. */
    method Record(t: real, charges: int)
      modifies this`timeline
      ensures timeline != [] && Shows(timeline[|timeline| - 1], TPRead(t, charges, end, travel))
      ensures timeline == old(timeline)
              || (timeline == old(timeline) + [TPState(Tenth(t), charges, ShownEnd(end, t), travel)]
                  && (old(timeline) != [] ==> News(timeline[|timeline| - 2], timeline[|timeline| - 1])))
    {
      hide Tenth;
      var cdEnd := 0.0;
      if end > t {
        cdEnd := Tenth(end);
      }
      if |timeline| > 0 {
        var last := timeline[|timeline| - 1];
        var sameCd := Abs(cdEnd - last.cdEnd) <= 1.0 || (cdEnd == 0.0 && last.cdEnd <= t + 1.0);
        if last.charges == charges && last.travel == travel && sameCd {
          return;
        }
      }
      timeline := timeline + [TPState(Tenth(t), charges, cdEnd, travel)];
    }
  }

  /** Each read is shown by the last row written by then: row upTo - 1. */
  ghost predicate AllShown(seen: seq<TPRead>, timeline: seq<TPState>, upTo: seq<nat>) {
    && |upTo| == |seen|
    && (forall i | 0 <= i < |seen| :: 0 < upTo[i] <= |timeline| && Shows(timeline[upTo[i] - 1], seen[i]))
    && (forall i | 0 < i < |seen| :: upTo[i - 1] <= upTo[i] <= upTo[i - 1] + 1)
    && (seen != [] ==> upTo[|seen| - 1] == |timeline|)
  }

  ghost predicate AllNews(timeline: seq<TPState>) {
    forall m | 0 < m < |timeline| :: News(timeline[m - 1], timeline[m])
  }

  lemma OneMoreShown(seen: seq<TPRead>, r: TPRead, before: seq<TPState>, after: seq<TPState>, upTo: seq<nat>)
    requires AllShown(seen, before, upTo) && after != [] && Shows(after[|after| - 1], r)
    requires before <= after && |after| <= |before| + 1 && (seen == [] ==> before == [])
    ensures AllShown(seen + [r], after, upTo + [|after|])
  {
    hide Shows;
  }

  lemma OneMoreRow(before: seq<TPState>, row: TPState)
    requires AllNews(before) && (before != [] ==> News(before[|before| - 1], row))
    ensures AllNews(before + [row])
  {
    hide News;
  }

  /** Over any reads each one is shown by the last row written by then, and no two rows in a row say the same. */
  method RecordScroll(seen: seq<TPRead>) returns (timeline: seq<TPState>, ghost upTo: seq<nat>)
    ensures AllShown(seen, timeline, upTo) && AllNews(timeline)
  {
    hide Tenth, Shows, News, ShownEnd, AllShown, AllNews;
    var s := new Scroll();
    upTo, timeline := [], [];
    Nothing();
    for i := 0 to |seen|
      invariant s.timeline == timeline && AllShown(seen[..i], timeline, upTo) && AllNews(timeline)
      invariant i == 0 ==> timeline == []
    {
      assert seen[..i + 1] == seen[..i] + [seen[i]];
      s.end, s.travel := seen[i].end, seen[i].travel;
      s.Record(seen[i].t, seen[i].charges);
      OneMoreShown(seen[..i], seen[i], timeline, s.timeline, upTo);
      if s.timeline != timeline {
        OneMoreRow(timeline, s.timeline[|timeline|]);
      }
      upTo := upTo + [|s.timeline|];
      timeline := s.timeline;
    }
    assert seen[..|seen|] == seen;
  }

  lemma Nothing()
    ensures AllShown([], [], []) && AllNews([])
  {
  }

  /** In numbers: the last row has the read's charges and travel level; a cooldown still running is shown to end within
      a second and a rounding of its end, one that is over no later than a second after the read, or the horn. */
  lemma ShownInNumbers(row: TPState, r: TPRead)
    requires Shows(row, r)
    ensures row.charges == r.charges && row.travel == r.travel
    ensures r.end > r.t ==> -1.05 <= row.cdEnd - r.end <= 1.05 || (r.end <= 0.05 && row.cdEnd <= r.t + 1.0)
    ensures r.end <= r.t ==> row.cdEnd <= 1.0 || row.cdEnd <= r.t + 1.0
  {
    hide Tenth;
    TenthIsNear(r.end);
  }

  /** Two rows in a row differ in charges, in travel level, or by more than a second in the end of the cooldown. */
  lemma NewsInNumbers(timeline: seq<TPState>, m: nat)
    requires AllNews(timeline) && 0 < m < |timeline|
    ensures var a, b := timeline[m - 1], timeline[m];
            a.charges != b.charges || a.travel != b.travel || b.cdEnd - a.cdEnd > 1.0 || a.cdEnd - b.cdEnd > 1.0
  {
    assert News(timeline[m - 1], timeline[m]);
  }

  /** A fitting cooldown of an item in numbers: its end within a second and a rounding, or none still to come. */
  lemma FitsInNumbers(known: Slot, r: Read)
    requires Fits(Some(known), r)
    ensures if r.cdLeft > 0.0 then -1.05 <= known.cdEnd - (r.t + r.cdLeft) <= 1.05
            else known.cdEnd == 0.0 || known.cdEnd <= r.t
  {
    hide Tenth;
    TenthIsNear(r.t + r.cdLeft);
  }
}
