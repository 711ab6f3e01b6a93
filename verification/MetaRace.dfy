/** Any number of processes updating the metadata of one replay at once (internal/vault/vault.go): every call is
    split into its single store calls, and the steps of different processes interleave freely. A store call may also
    fail, with or without having been carried out. */
module MetaRace {
  import opened Wrappers
  import opened Kinds
  import opened Text
  import opened Metadata
  import opened MergeAlgebra
  import opened ObjectStore
  import V = Vault

  const KEY := "replay"
  const ATTEMPTS: nat := V.ATTEMPTS

  datatype Op =
    | Update(want: Meta)
    | MarkBad(ver: string)
    | ClearBad
    | MarkCorrupt
    | PutNew(want: Meta, data: Bytes)

  /** The metadata function an operation hands to the read-modify-write. */
  function Fn(op: Op, m: Meta): Meta {
    match op
    case Update(want) => Merge(m, want)
    case PutNew(want, _) => Merge(m, want)
    case MarkBad(ver) => m.(bad := true, badVer := ver)
    case ClearBad => m.(bad := false, badVer := "")
    case MarkCorrupt => m.(corrupt := true)
  }

  datatype Outcome =
    | Stored                   // PutNew created the object
    | Returned(m: Meta)        // the metadata is fn's result
    | Absent                   // not found
    | KeptChanging
    | Failed                   // a store call failed
    | ReplacesCorrupt          // PutNew found a corrupt object: the unconditional replacement is not part of this model

  /** The next store call of a process. */
  datatype Control =
    | Create                                                  // PutNew: conditional create
    | Check                                                   // PutNew: is the object there corrupt?
    | Read(attempt: nat)
    | Write(attempt: nat, etag: nat, have: Meta)
    | Done(outcome: Outcome)

  /** since: the length of the history at the call's first read. */
  datatype Proc = Proc(op: Op, at: Control, since: nat)

  /** One call took effect: it created the object, rewrote it, or found nothing to change. */
  datatype Entry = Entry(proc: nat, op: Op, created: bool, wrote: bool)

  datatype State = State(store: Store, procs: seq<Proc>, hist: seq<Entry>)

  datatype Event =
    | Call(proc: nat)          // the process's next store call, answered
    | Refused(proc: nat)       // it fails without effect
    | Unanswered(proc: nat)    // it is carried out, but the process sees a failure

  function Move(s: State, p: nat, at: Control): State
    requires p < |s.procs|
  {
    s.(procs := s.procs[p := s.procs[p].(at := at)])
  }

  function Record(s: State, e: Entry): State {
    s.(hist := s.hist + [e])
  }

  function Step(s: State, e: Event): State {
    if e.proc >= |s.procs| then s
    else
      var p := e.proc;
      var q := s.procs[p];
      if q.at.Done? then s
      else if e.Refused? then Move(s, p, Done(Failed))
      else
        var t := Answered(s, p);
        if e.Unanswered? then Move(t, p, Done(Failed)) else t
  }

  /** The process's store call, carried out. */
  function Answered(s: State, p: nat): State
    requires p < |s.procs| && !s.procs[p].at.Done?
  {
    var q := s.procs[p];
    match q.at
    case Create =>
      if !q.op.PutNew? then Move(s, p, Read(0))
      else
        var (st, status) := PutStep(s.store, KEY, q.op.data, ToS3(q.op.want), true);
        if status == Exists then Move(s, p, Check)
        else Record(Move(s.(store := st), p, Done(Stored)), Entry(p, q.op, true, true))
    case Check =>
      if KEY in s.store.objects && FromS3(s.store.objects[KEY].meta).corrupt then Move(s, p, Done(ReplacesCorrupt))
      else Move(s, p, Read(0))
    case Read(attempt) =>
      var since := if attempt == 0 then |s.hist| else q.since;
      var s' := s.(procs := s.procs[p := q.(since := since)]);
      if KEY !in s.store.objects then Move(s', p, Done(Absent))
      else
        var o := s.store.objects[KEY];
        var have := FromS3(o.meta);
        var next := Fn(q.op, have);
        if EqualMeta(have, next) then Record(Move(s', p, Done(Returned(next))), Entry(p, q.op, false, false))
        else Move(s', p, Write(attempt, o.etag, have))
    case Write(attempt, etag, have) =>
      var next := Fn(q.op, have);
      var (st, status) := RewriteStep(s.store, KEY, Some(etag), ToS3(next));
      if status == Changed then Move(s, p, if attempt + 1 < ATTEMPTS then Read(attempt + 1) else Done(KeptChanging))
      else if status == NotFound then Move(s, p, Done(Failed))
      else Record(Move(s.(store := st), p, Done(Returned(next))), Entry(p, q.op, false, true))
  }

  function Run(s: State, events: seq<Event>): State {
    if events == [] then s else Step(Run(s, events[..|events| - 1]), events[|events| - 1])
  }

  /** Every process is about to make the first store call of its operation. */
  ghost predicate Init(s: State) {
    && Minted(s.store)
    && s.hist == []
    && forall p | 0 <= p < |s.procs| :: s.procs[p].at == if s.procs[p].op.PutNew? then Create else Read(0)
  }

  // ---- what the history means

  /** The metadata readers see. */
  ghost function Visible(s: Store): Option<Meta> {
    if KEY in s.objects then Some(FromS3(s.objects[KEY].meta)) else None
  }

  ghost function Effect(e: Entry, m: Option<Meta>): Option<Meta> {
    if e.created then (if e.op.PutNew? then Some(Norm(e.op.want)) else None)
    else if m.None? then None
    else Some(Norm(Fn(e.op, m.value)))
  }

  /** The effects of a history, one after the other. */
  ghost function Fold(init: Option<Meta>, hist: seq<Entry>): Option<Meta> {
    if hist == [] then init else Effect(hist[|hist| - 1], Fold(init, hist[..|hist| - 1]))
  }

  ghost function Landed(hist: seq<Entry>, p: nat): nat {
    if hist == [] then 0 else Landed(hist[..|hist| - 1], p) + (if hist[|hist| - 1].proc == p then 1 else 0)
  }

  ghost function Writes(hist: seq<Entry>): nat {
    if hist == [] then 0 else Writes(hist[..|hist| - 1]) + (if hist[|hist| - 1].wrote then 1 else 0)
  }

  /** Process p's call took effect at place i of the history and answered what its function gave there. */
  ghost predicate TookEffectAt(init: Option<Meta>, s: State, p: nat, i: nat, m: Meta)
    requires p < |s.procs|
  {
    && i < |s.hist| && s.hist[i].proc == p && s.hist[i].op == s.procs[p].op && !s.hist[i].created
    && Fold(init, s.hist[..i]).Some? && m == Fn(s.procs[p].op, Fold(init, s.hist[..i]).value)
  }

  ghost predicate ProcOk(init: Option<Meta>, s: State, p: nat)
    requires p < |s.procs|
  {
    var q := s.procs[p];
    match q.at
    case Create => Landed(s.hist, p) == 0 && q.op.PutNew?
    case Check => Landed(s.hist, p) == 0
    case Read(a) =>
      && Landed(s.hist, p) == 0 && a < ATTEMPTS
      && (a > 0 ==> q.since <= |s.hist| && Writes(s.hist[q.since..]) >= a)
    case Write(a, etag, have) =>
      && Landed(s.hist, p) == 0 && a < ATTEMPTS && KEY in s.store.objects
      && q.since <= |s.hist|
      && etag <= s.store.objects[KEY].etag
      && Writes(s.hist[q.since..]) >= (if etag == s.store.objects[KEY].etag then a else a + 1)
      && (etag == s.store.objects[KEY].etag ==> Visible(s.store) == Some(have))
    case Done(o) =>
      match o
      case Stored => Landed(s.hist, p) == 1 && |s.hist| > 0 && s.hist[0].proc == p && s.hist[0].created
      case Returned(m) => Landed(s.hist, p) == 1 && exists i: nat :: TookEffectAt(init, s, p, i, m)
      case Absent => Landed(s.hist, p) == 0
      case KeptChanging =>
        Landed(s.hist, p) == 0 && q.since <= |s.hist| && Writes(s.hist[q.since..]) >= ATTEMPTS
      case Failed => Landed(s.hist, p) <= 1
      case ReplacesCorrupt => Landed(s.hist, p) == 0
  }

  /** The object is created at most once, and only as the first effect on a free key. */
  ghost predicate HistOk(init: Option<Meta>, ops: seq<Op>, hist: seq<Entry>) {
    && (forall i | 0 <= i < |hist| :: hist[i].created ==> i == 0 && init == None && hist[i].op.PutNew?)
    && (init == None && hist != [] ==> hist[0].created)
    && (forall i | 0 <= i < |hist| :: hist[i].proc < |ops| && ops[hist[i].proc] == hist[i].op)
  }

  ghost function Ops(s: State): seq<Op> {
    seq(|s.procs|, p requires 0 <= p < |s.procs| => s.procs[p].op)
  }

  ghost predicate Inv(init: Option<Meta>, s: State) {
    && Minted(s.store)
    && Visible(s.store) == Fold(init, s.hist)
    && HistOk(init, Ops(s), s.hist)
    && forall p | 0 <= p < |s.procs| :: ProcOk(init, s, p)
  }

  // ---- the invariant is kept by every step

  lemma AppendFacts(init: Option<Meta>, hist: seq<Entry>, e: Entry, since: nat)
    ensures Fold(init, hist + [e]) == Effect(e, Fold(init, hist))
    ensures forall p :: Landed(hist + [e], p) == Landed(hist, p) + (if e.proc == p then 1 else 0)
    ensures since <= |hist| ==> Writes((hist + [e])[since..]) == Writes(hist[since..]) + (if e.wrote then 1 else 0)
  {
    assert (hist + [e])[..|hist|] == hist;
    if since <= |hist| {
      assert (hist + [e])[since..] == hist[since..] + [e];
      assert (hist[since..] + [e])[..|hist[since..]|] == hist[since..];
    }
  }

  /** A process that does not move keeps its part of the invariant when another one only moves. */
  lemma OthersUnmoved(init: Option<Meta>, s: State, t: State, p: nat, x: nat)
    requires p < |s.procs| && x < |s.procs| && p != x && ProcOk(init, s, x)
    requires t.store == s.store && t.hist == s.hist && |t.procs| == |s.procs| && t.procs[x] == s.procs[x]
    ensures ProcOk(init, t, x)
  {
    hide Fold, Landed, Writes, Visible, FromS3, ToS3, Fn;
    if s.procs[x].at.Done? && s.procs[x].at.outcome.Returned? {
      var m := s.procs[x].at.outcome.m;
      var i: nat :| TookEffectAt(init, s, x, i, m);
      assert TookEffectAt(init, t, x, i, m);
    }
  }

  /** ... and when another one takes effect: a rewrite gives the object a new ETag and counts as one more write. */
  lemma OthersRecorded(init: Option<Meta>, s: State, t: State, e: Entry, x: nat)
    requires x < |s.procs| && e.proc != x && ProcOk(init, s, x)
    requires t.hist == s.hist + [e] && |t.procs| == |s.procs| && t.procs[x] == s.procs[x]
    requires KEY in t.store.objects
    requires e.wrote ==> KEY !in s.store.objects || t.store.objects[KEY].etag > s.store.objects[KEY].etag
    requires !e.wrote ==> t.store == s.store
    ensures ProcOk(init, t, x)
  {
    hide FromS3, ToS3, Fn, Effect, Fold;
    AppendFacts(init, s.hist, e, s.procs[x].since);
    if s.procs[x].at.Done? && s.procs[x].at.outcome.Returned? {
      var m := s.procs[x].at.outcome.m;
      var i: nat :| TookEffectAt(init, s, x, i, m);
      assert t.hist[..i] == s.hist[..i];
      assert TookEffectAt(init, t, x, i, m);
    }
  }

  /** Process p moves without a store write or an effect. */
  lemma MoveKeeps(init: Option<Meta>, s: State, t: State, p: nat)
    requires Inv(init, s) && p < |s.procs|
    requires t.store == s.store && t.hist == s.hist && |t.procs| == |s.procs| && t.procs[p].op == s.procs[p].op
    requires forall x | 0 <= x < |s.procs| && x != p :: t.procs[x] == s.procs[x]
    requires ProcOk(init, t, p)
    ensures Inv(init, t)
  {
    hide Fold, Landed, Writes, Visible, FromS3, ToS3, ProcOk, HistOk;
    assert Ops(t) == Ops(s);
    forall x | 0 <= x < |t.procs| ensures ProcOk(init, t, x) {
      if x != p { OthersUnmoved(init, s, t, p, x); }
    }
  }

  /** Process p takes effect. */
  lemma EffectKeeps(init: Option<Meta>, s: State, t: State, e: Entry)
    requires Inv(init, s) && e.proc < |s.procs| && e.op == s.procs[e.proc].op
    requires t.hist == s.hist + [e] && |t.procs| == |s.procs| && t.procs[e.proc].op == s.procs[e.proc].op
    requires forall x | 0 <= x < |s.procs| && x != e.proc :: t.procs[x] == s.procs[x]
    requires Minted(t.store) && KEY in t.store.objects
    requires e.wrote ==> KEY !in s.store.objects || t.store.objects[KEY].etag > s.store.objects[KEY].etag
    requires !e.wrote ==> t.store == s.store
    requires Visible(t.store) == Effect(e, Visible(s.store))
    requires e.created ==> KEY !in s.store.objects && e.op.PutNew?
    requires !e.created ==> KEY in s.store.objects
    requires ProcOk(init, t, e.proc)
    ensures Inv(init, t)
  {
    hide Landed, Writes, FromS3, ToS3, ProcOk, Effect, Fold, HistOk;
    AppendFacts(init, s.hist, e, 0);
    assert Ops(t) == Ops(s);
    AppendHistOk(init, Ops(s), s.hist, e);
    forall x | 0 <= x < |t.procs| ensures ProcOk(init, t, x) {
      if x != e.proc { OthersRecorded(init, s, t, e, x); }
    }
  }

  lemma AppendHistOk(init: Option<Meta>, ops: seq<Op>, hist: seq<Entry>, e: Entry)
    requires HistOk(init, ops, hist) && e.proc < |ops| && ops[e.proc] == e.op
    requires e.created ==> Fold(init, hist).None? && e.op.PutNew?
    requires !e.created ==> Fold(init, hist).Some?
    ensures HistOk(init, ops, hist + [e])
  {
    hide Effect;
    if hist != [] {
      EffectSome(init, hist);
    } else {
      assert Fold(init, hist) == init;
    }
  }

  /** Once there is an object there always is one. */
  lemma {:induction false} EffectSome(init: Option<Meta>, hist: seq<Entry>)
    requires hist != [] && (init == None ==> hist[0].created)
    requires forall i | 0 <= i < |hist| :: hist[i].created ==> hist[i].op.PutNew?
    ensures Fold(init, hist).Some?
  {
    hide Norm, Fn;
    if |hist| > 1 {
      EffectSome(init, hist[..|hist| - 1]);
    } else {
      assert hist[..0] == [];
      assert Fold(init, []) == init;
    }
  }

  lemma ReadStep(init: Option<Meta>, s: State, p: nat)
    requires Inv(init, s) && p < |s.procs| && s.procs[p].at.Read?
    ensures Inv(init, Answered(s, p))
  {
    hide FromS3, ToS3, Fn, Fold, HistOk, EqualMeta;
    var q := s.procs[p];
    var t := Answered(s, p);
    assert ProcOk(init, s, p);
    if KEY !in s.store.objects {
      MoveKeeps(init, s, t, p);
    } else {
      var have := FromS3(s.store.objects[KEY].meta);
      if EqualMeta(have, Fn(q.op, have)) {
        NothingToChange(init, s, p);
      } else {
        assert s.hist[|s.hist|..] == [];
        MoveKeeps(init, s, t, p);
      }
    }
  }

  lemma NothingToChange(init: Option<Meta>, s: State, p: nat)
    requires Inv(init, s) && p < |s.procs| && s.procs[p].at.Read? && KEY in s.store.objects
    requires var have := FromS3(s.store.objects[KEY].meta); EqualMeta(have, Fn(s.procs[p].op, have))
    ensures Inv(init, Answered(s, p))
  {
    hide FromS3, ToS3, Fn, Fold, HistOk, EqualMeta;
    var q := s.procs[p];
    var t := Answered(s, p);
    assert ProcOk(init, s, p);
    var next := Fn(q.op, FromS3(s.store.objects[KEY].meta));
    NoChange(s.store.objects[KEY].meta, next);
    var e := Entry(p, q.op, false, false);
    AppendFacts(init, s.hist, e, 0);
    assert t.hist[..|s.hist|] == s.hist;
    assert TookEffectAt(init, t, p, |s.hist|, next);
    EffectKeeps(init, s, t, e);
  }

  /** A skipped rewrite would have shown readers what they see anyway. */
  lemma NoChange(stored: Stored, next: Meta)
    requires EqualMeta(FromS3(stored), next)
    ensures Norm(next) == FromS3(stored)
  {
    hide FromS3, ToS3, EqualMeta;
    FromS3WellFormed(stored);
    EqualMetaDecides(FromS3(stored), next);
  }

  lemma WriteStep(init: Option<Meta>, s: State, p: nat)
    requires Inv(init, s) && p < |s.procs| && s.procs[p].at.Write?
    ensures Inv(init, Answered(s, p))
  {
    hide FromS3, ToS3, Fn, Fold, HistOk;
    assert ProcOk(init, s, p);
    if s.procs[p].at.etag == s.store.objects[KEY].etag {
      WritesHere(init, s, p);
    } else {
      MoveKeeps(init, s, Answered(s, p), p);
    }
  }

  lemma WritesHere(init: Option<Meta>, s: State, p: nat)
    requires Inv(init, s) && p < |s.procs| && s.procs[p].at.Write?
    requires KEY in s.store.objects && s.procs[p].at.etag == s.store.objects[KEY].etag
    ensures Inv(init, Answered(s, p))
  {
    hide FromS3, ToS3, Fn, Fold, HistOk;
    var q := s.procs[p];
    var t := Answered(s, p);
    assert ProcOk(init, s, p);
    var e := Entry(p, q.op, false, true);
    AppendFacts(init, s.hist, e, 0);
    assert t.hist[..|s.hist|] == s.hist;
    assert TookEffectAt(init, t, p, |s.hist|, Fn(q.op, q.at.have));
    EffectKeeps(init, s, t, e);
  }

  lemma CreateStep(init: Option<Meta>, s: State, p: nat)
    requires Inv(init, s) && p < |s.procs| && s.procs[p].at.Create?
    ensures Inv(init, Answered(s, p))
  {
    hide FromS3, ToS3, Fn, Fold, HistOk, EqualMeta;
    assert ProcOk(init, s, p);
    if KEY !in s.store.objects {
      Creates(init, s, p);
    } else {
      MoveKeeps(init, s, Answered(s, p), p);
    }
  }

  lemma Creates(init: Option<Meta>, s: State, p: nat)
    requires Inv(init, s) && p < |s.procs| && s.procs[p].at.Create? && KEY !in s.store.objects
    ensures Inv(init, Answered(s, p))
  {
    hide FromS3, ToS3, Fn, Fold, HistOk, EqualMeta;
    var q := s.procs[p];
    assert ProcOk(init, s, p);
    var e := Entry(p, q.op, true, true);
    AppendFacts(init, s.hist, e, 0);
    if s.hist != [] { HistSome(init, s); }
    var t := Answered(s, p);
    assert t.store.objects[KEY].meta == ToS3(q.op.want);
    EffectKeeps(init, s, t, e);
  }

  lemma CheckStep(init: Option<Meta>, s: State, p: nat)
    requires Inv(init, s) && p < |s.procs| && s.procs[p].at.Check?
    ensures Inv(init, Answered(s, p))
  {
    hide FromS3, ToS3, Fn, Fold, HistOk, EqualMeta;
    assert ProcOk(init, s, p);
    MoveKeeps(init, s, Answered(s, p), p);
  }

  lemma HistSome(init: Option<Meta>, s: State)
    requires HistOk(init, Ops(s), s.hist) && s.hist != []
    ensures Fold(init, s.hist).Some?
  {
    EffectSome(init, s.hist);
  }

  lemma StepKeepsInv(init: Option<Meta>, s: State, e: Event)
    requires Inv(init, s)
    ensures Inv(init, Step(s, e))
  {
    hide FromS3, ToS3, Fn, Fold, HistOk, Answered;
    if e.proc < |s.procs| && !s.procs[e.proc].at.Done? {
      var p := e.proc;
      assert ProcOk(init, s, p);
      if e.Refused? {
        MoveKeeps(init, s, Step(s, e), p);
      } else {
        match s.procs[p].at {
          case Create => CreateStep(init, s, p);
          case Check => CheckStep(init, s, p);
          case Read(_) => ReadStep(init, s, p);
          case Write(_, _, _) => WriteStep(init, s, p);
          case Done(_) =>
        }
        if e.Unanswered? {
          AtMostOne(init, s, p);
          MoveKeeps(init, Answered(s, p), Step(s, e), p);
        }
      }
    }
  }

  /** What a store call changes: the caller's place, and at most one effect of its own. */
  lemma AnsweredShape(s: State, p: nat)
    requires p < |s.procs| && !s.procs[p].at.Done?
    ensures var t := Answered(s, p);
            && |t.procs| == |s.procs| && t.procs[p].op == s.procs[p].op
            && (forall x | 0 <= x < |s.procs| && x != p :: t.procs[x] == s.procs[x])
            && (t.hist == s.hist || exists e ::
               t.hist == s.hist + [e] && e.proc == p && e.op == s.procs[p].op && (e.created ==> e.wrote))
  {
    hide FromS3, ToS3, Fn, EqualMeta, RewriteStep, PutStep;
    var t := Answered(s, p);
    if t.hist != s.hist {
      assert t.hist == s.hist + [t.hist[|s.hist|]];
    }
  }

  /** One store call adds at most one effect, the caller's own. */
  lemma AtMostOne(init: Option<Meta>, s: State, p: nat)
    requires Inv(init, s) && p < |s.procs| && !s.procs[p].at.Done?
    ensures var t := Answered(s, p);
            && Landed(t.hist, p) <= 1 && |t.procs| == |s.procs| && t.procs[p].op == s.procs[p].op
  {
    hide Answered, Fold, HistOk, Visible, ProcOk, Writes;
    NotLanded(init, s, p);
    AnsweredShape(s, p);
    var t := Answered(s, p);
    if t.hist != s.hist {
      var e :| t.hist == s.hist + [e] && e.proc == p;
      AppendFacts(init, s.hist, e, 0);
    }
  }

  lemma NotLanded(init: Option<Meta>, s: State, p: nat)
    requires p < |s.procs| && ProcOk(init, s, p) && !s.procs[p].at.Done?
    ensures Landed(s.hist, p) == 0
  {
    hide Landed, Writes, Visible;
  }

  /** Every reachable state satisfies the invariant, whatever the interleaving. */
  lemma {:induction false} RunKeepsInv(s: State, events: seq<Event>)
    requires Init(s)
    ensures Inv(Visible(s.store), Run(s, events))
  {
    hide FromS3, ToS3, Fn, Step;
    if events == [] {
      assert forall p | 0 <= p < |s.procs| :: ProcOk(Visible(s.store), s, p);
    } else {
      RunKeepsInv(s, events[..|events| - 1]);
      StepKeepsInv(Visible(s.store), Run(s, events[..|events| - 1]), events[|events| - 1]);
    }
  }

  // ---- what it means for the callers

  /** Event n is a store call that p made before its answer, and it added place i to the history. */
  ghost predicate EffectAt(s0: State, events: seq<Event>, p: nat, i: nat, n: nat) {
    && n < |events| && events[n].proc == p
    && p < |Run(s0, events[..n]).procs| && !Run(s0, events[..n]).procs[p].at.Done?
    && |Run(s0, events[..n]).hist| == i && |Run(s0, events[..n + 1]).hist| == i + 1
  }

  /** Place i of the history was taken between the first store call of p and p's answer. */
  ghost predicate DuringCall(s0: State, events: seq<Event>, p: nat, i: nat) {
    exists n: nat :: EffectAt(s0, events, p, i, n)
  }

  lemma StepEffect(s: State, e: Event)
    ensures var t := Step(s, e);
            && |t.procs| == |s.procs|
            && (forall x | 0 <= x < |s.procs| ::
               t.procs[x].op == s.procs[x].op && (s.procs[x].at.Done? ==> t.procs[x] == s.procs[x]))
            && (t.hist == s.hist
                || (e.proc < |s.procs| && !s.procs[e.proc].at.Done?
                    && exists x :: t.hist == s.hist + [x] && x.proc == e.proc && (x.created ==> x.wrote)))
  {
    hide Answered;
    if e.proc < |s.procs| && !s.procs[e.proc].at.Done? {
      AnsweredShape(s, e.proc);
    }
  }

  lemma {:induction false} EffectsDuringCalls(s0: State, events: seq<Event>, i: nat)
    requires i < |Run(s0, events).hist| && s0.hist == []
    ensures DuringCall(s0, events, Run(s0, events).hist[i].proc, i)
  {
    hide Step;
    var m := |events| - 1;
    var front, e := events[..m], events[m];
    var s := Run(s0, front);
    StepEffect(s, e);
    var p := Run(s0, events).hist[i].proc;
    if i < |s.hist| {
      EffectsDuringCalls(s0, front, i);
      var n: nat :| EffectAt(s0, front, p, i, n);
      assert front[..n] == events[..n] && front[..n + 1] == events[..n + 1];
      assert EffectAt(s0, events, p, i, n);
    } else {
      assert events[..m + 1] == events;
      assert EffectAt(s0, events, p, i, m);
    }
  }

  /** The history only grows, and an answered call stays answered. */
  lemma {:induction false} Grows(s0: State, events: seq<Event>, m: nat, n: nat)
    requires m <= n <= |events|
    ensures var s, t := Run(s0, events[..m]), Run(s0, events[..n]);
            s.hist <= t.hist && |t.procs| == |s.procs|
            && forall x | 0 <= x < |s.procs| && s.procs[x].at.Done? :: t.procs[x] == s.procs[x]
  {
    hide Step;
    if m < n {
      Grows(s0, events, m, n - 1);
      assert events[..n][..n - 1] == events[..n - 1];
      StepEffect(Run(s0, events[..n - 1]), events[n - 1]);
    }
  }

  /** Real time is respected: a call that was answered before another made its first store call took effect first. */
  lemma AnsweredCallsComeFirst(s0: State, events: seq<Event>, m: nat, i: nat, j: nat)
    requires Init(s0) && m <= |events| && i < |Run(s0, events).hist| && j < |Run(s0, events).hist|
    requires var p, q := Run(s0, events).hist[i].proc, Run(s0, events).hist[j].proc;
             && p < |Run(s0, events[..m]).procs| && Run(s0, events[..m]).procs[p].at.Done?
             && forall n | 0 <= n < m :: events[n].proc != q
    ensures i < j
  {
    hide Step, Run;
    var p, q := Run(s0, events).hist[i].proc, Run(s0, events).hist[j].proc;
    EffectsDuringCalls(s0, events, i);
    EffectsDuringCalls(s0, events, j);
    var a: nat :| EffectAt(s0, events, p, i, a);
    var b: nat :| EffectAt(s0, events, q, j, b);
    if a >= m { Grows(s0, events, m, a); }
    Grows(s0, events, a + 1, b);
  }

  /** The calls are linearizable. What readers see is the fold of the effects in their order; every effect of a call
      lies between its first store call and its answer; a call that answered took effect exactly once and answered
      its function's value there; a call that found no object, gave up or turned to a corrupt object had no effect,
      and a failed one at most one. */
  lemma Linearizable(s0: State, events: seq<Event>, p: nat)
    requires Init(s0) && p < |s0.procs|
    ensures var init, s := Visible(s0.store), Run(s0, events);
            && Visible(s.store) == Fold(init, s.hist)
            && p < |s.procs| && s.procs[p].op == s0.procs[p].op
            && (forall i: nat | i < |s.hist| && s.hist[i].proc == p :: DuringCall(s0, events, p, i))
            && (s.procs[p].at.Done? ==>
                  match s.procs[p].at.outcome
                  case Returned(m) => Landed(s.hist, p) == 1
                                      && exists i: nat :: TookEffectAt(init, s, p, i, m) && DuringCall(s0, events, p, i)
                  case Stored => Landed(s.hist, p) == 1 && s.hist != []
                      && s.hist[0] == Entry(p, s.procs[p].op, true, true)
                  case Failed => Landed(s.hist, p) <= 1
                  case _ => Landed(s.hist, p) == 0)
  {
    hide FromS3, ToS3, Fn, Fold, Step, DuringCall;
    RunKeepsInv(s0, events);
    SameProcs(s0, events);
    var s := Run(s0, events);
    assert |s.procs| == |Ops(s)| == |Ops(s0)| && Ops(s)[p] == Ops(s0)[p];
    assert ProcOk(Visible(s0.store), s, p);
    CreatedWrites(s0, events);
    forall i: nat | i < |s.hist| && s.hist[i].proc == p ensures DuringCall(s0, events, p, i) {
      EffectsDuringCalls(s0, events, i);
    }
    if s.procs[p].at.Done? && s.procs[p].at.outcome.Returned? {
      var i: nat :| TookEffectAt(Visible(s0.store), s, p, i, s.procs[p].at.outcome.m);
      assert DuringCall(s0, events, p, i);
    }
  }

  lemma {:induction false} SameProcs(s0: State, events: seq<Event>)
    ensures Ops(Run(s0, events)) == Ops(s0)
  {
    hide Step;
    if events != [] {
      SameProcs(s0, events[..|events| - 1]);
      StepEffect(Run(s0, events[..|events| - 1]), events[|events| - 1]);
    }
  }

  lemma {:induction false} CreatedWrites(s0: State, events: seq<Event>)
    requires Init(s0)
    ensures forall e | e in Run(s0, events).hist && e.created :: e.wrote
  {
    hide Step;
    if events != [] {
      CreatedWrites(s0, events[..|events| - 1]);
      StepEffect(Run(s0, events[..|events| - 1]), events[|events| - 1]);
    }
  }

  /** Of racing creates at most one wins, and on a free key the first effect is a create: whoever made it, every other
      PutNew is told the object exists. */
  lemma OneWinner(s0: State, events: seq<Event>, p: nat, q: nat)
    requires Init(s0) && p < |s0.procs| && q < |s0.procs|
    ensures var s := Run(s0, events);
            && |s.procs| == |s0.procs|
            && (s.procs[p].at == Done(Stored) && s.procs[q].at == Done(Stored) ==> p == q)
            && (Visible(s0.store) == None && Visible(s.store).Some? ==>
                  s.hist != [] && s.hist[0].created && s.hist[0].op.PutNew?
                  && (s.procs[p].at == Done(Stored) ==> p == s.hist[0].proc))
            && (Visible(s0.store).Some? ==> s.procs[p].at != Done(Stored))
  {
    hide FromS3, ToS3, Fn, Step;
    RunKeepsInv(s0, events);
    SameProcs(s0, events);
    var s := Run(s0, events);
    assert |s.procs| == |Ops(s)| == |Ops(s0)|;
    assert ProcOk(Visible(s0.store), s, p) && ProcOk(Visible(s0.store), s, q);
    if s.hist == [] { assert Fold(Visible(s0.store), s.hist) == Visible(s0.store); }
  }

  /** Who created the object was told so, unless the answer was lost. */
  ghost predicate CreatorsTold(s: State, events: seq<Event>) {
    forall e | e in s.hist && e.created ::
      && e.proc < |s.procs|
      && (s.procs[e.proc].at == Done(Stored) || (s.procs[e.proc].at == Done(Failed) && Unanswered(e.proc) in events))
  }

  /** A PutNew that got past its create without failing found an object or made one. */
  ghost predicate SomethingThere(init: Option<Meta>, s: State) {
    init == None ==> forall p | 0 <= p < |s.procs| && s.procs[p].op.PutNew? ::
                       s.procs[p].at.Create? || s.procs[p].at == Done(Failed) || s.hist != []
  }

  lemma CreateShape(init: Option<Meta>, s: State, p: nat)
    requires Inv(init, s) && init == None && p < |s.procs| && s.procs[p].at.Create? && s.procs[p].op.PutNew?
    ensures Answered(s, p).hist != []
  {
    hide FromS3, ToS3, Fn, HistOk, ProcOk;
  }

  lemma StepKeepsSomething(init: Option<Meta>, s: State, e: Event)
    requires Inv(init, s) && SomethingThere(init, s)
    ensures SomethingThere(init, Step(s, e))
  {
    hide Answered, Inv;
    StepEffect(s, e);
    if e.proc < |s.procs| && !s.procs[e.proc].at.Done? {
      AnsweredShape(s, e.proc);
      if init == None && s.procs[e.proc].at.Create? && s.procs[e.proc].op.PutNew? { CreateShape(init, s, e.proc); }
    }
  }

  lemma CreatedHere(s: State, p: nat, x: Entry)
    requires p < |s.procs| && !s.procs[p].at.Done? && Answered(s, p).hist == s.hist + [x] && x.created
    ensures p < |Answered(s, p).procs| && Answered(s, p).procs[p].at == Done(Stored)
  {
    hide FromS3, ToS3, Fn, EqualMeta, RewriteStep, PutStep;
    assert Answered(s, p).hist[|s.hist|] == x;
  }

  lemma StepKeepsTold(s: State, events: seq<Event>, e: Event)
    requires CreatorsTold(s, events)
    ensures CreatorsTold(Step(s, e), events + [e])
  {
    hide Answered;
    StepEffect(s, e);
    var t := Step(s, e);
    assert forall x | x in events :: x in events + [e];
    assert e in events + [e];
    if t.hist != s.hist {
      var x :| t.hist == s.hist + [x] && x.proc == e.proc;
      AnsweredShape(s, e.proc);
      if x.created && !e.Refused? {
        CreatedHere(s, e.proc, x);
      }
    }
  }

  lemma {:induction false} RunKeepsTold(s0: State, events: seq<Event>)
    requires Init(s0)
    ensures CreatorsTold(Run(s0, events), events) && SomethingThere(Visible(s0.store), Run(s0, events))
  {
    hide Step, Visible;
    if events != [] {
      var front, e := events[..|events| - 1], events[|events| - 1];
      assert events == front + [e];
      RunKeepsTold(s0, front);
      RunKeepsInv(s0, front);
      StepKeepsTold(Run(s0, front), front, e);
      StepKeepsSomething(Visible(s0.store), Run(s0, front), e);
    }
  }

  /** On a free key exactly one create wins as soon as some PutNew has ended without a failure: it is the first effect,
      and its process was told that it stored the object unless that answer was lost. */
  lemma ExactlyOneWinner(s0: State, events: seq<Event>, p: nat)
    requires Init(s0) && p < |s0.procs| && s0.procs[p].op.PutNew? && Visible(s0.store) == None
    requires p < |Run(s0, events).procs| && Run(s0, events).procs[p].at.Done?
             && Run(s0, events).procs[p].at.outcome != Failed
    ensures var s := Run(s0, events);
            && s.hist != [] && s.hist[0].created && (forall i | 0 < i < |s.hist| :: !s.hist[i].created)
            && var w := s.hist[0].proc;
               && w < |s.procs|
               && (s.procs[w].at == Done(Stored) || (s.procs[w].at == Done(Failed) && Unanswered(w) in events))
  {
    hide FromS3, ToS3, Fn, Step, ProcOk;
    var s := Run(s0, events);
    RunKeepsInv(s0, events);
    RunKeepsTold(s0, events);
    SameProcs(s0, events);
    assert |s.procs| == |Ops(s)| == |Ops(s0)| && Ops(s)[p] == Ops(s0)[p];
    assert s.hist[0] in s.hist;
  }

  /** "kept changing" is answered only if at least sixteen writes of other processes landed during the call. */
  lemma KeptChangingMeansContention(s0: State, events: seq<Event>, p: nat)
    requires Init(s0) && p < |s0.procs|
    ensures var s := Run(s0, events);
            && p < |s.procs|
            && (s.procs[p].at == Done(KeptChanging) ==>
                  var since := s.procs[p].since;
                  && since <= |s.hist| && Writes(s.hist[since..]) >= 16
                  && forall e | e in s.hist :: e.proc != p)
  {
    hide FromS3, ToS3, Fn, Step, Fold;
    RunKeepsInv(s0, events);
    SameProcs(s0, events);
    var s := Run(s0, events);
    assert |s.procs| == |Ops(s)| == |Ops(s0)|;
    assert ProcOk(Visible(s0.store), s, p);
    NoneLanded(s.hist, p);
  }

  lemma {:induction false} NoneLanded(hist: seq<Entry>, p: nat)
    ensures Landed(hist, p) == 0 <==> forall e | e in hist :: e.proc != p
  {
    if hist != [] {
      NoneLanded(hist[..|hist| - 1], p);
      assert hist == hist[..|hist| - 1] + [hist[|hist| - 1]];
    }
  }

  // ---- how a call ends

  /** The store calls a process has before it at most. */
  function StepsLeft(at: Control): nat {
    match at
    case Create => 34
    case Check => 33
    case Read(a) => if a < 16 then 2 * (16 - a) else 2
    case Write(a, _, _) => if a < 16 then 2 * (16 - a) - 1 else 1
    case Done(_) => 0
  }

  /** Where a store call that is answered can lead. */
  lemma AnswerShape(s: State, p: nat)
    requires p < |s.procs| && !s.procs[p].at.Done?
    ensures var t := Answered(s, p);
            && |t.procs| == |s.procs|
            && StepsLeft(t.procs[p].at) < StepsLeft(s.procs[p].at)
            && (t.procs[p].at == Done(Failed) ==> s.procs[p].at.Write? && KEY !in s.store.objects)
            && (t.procs[p].at == Done(Absent) ==> s.procs[p].at.Read? && KEY !in s.store.objects)
            && (t.procs[p].at == Done(Stored) || t.procs[p].at.Check? ==>
                  s.procs[p].at.Create? && s.procs[p].op.PutNew?)
            && (t.procs[p].at == Done(ReplacesCorrupt) ==> s.procs[p].at.Check?)
  {
    hide FromS3, ToS3, Fn, EqualMeta, PutStep;
  }

  /** A failure was seen, nothing was absent but where nothing was, and only a PutNew creates or replaces. */
  ghost predicate Caused(init: Option<Meta>, events: seq<Event>, p: nat, q: Proc) {
    && (q.at == Done(Failed) ==> Refused(p) in events || Unanswered(p) in events)
    && (q.at == Done(Absent) ==> init == None && !q.op.PutNew?)
    && (q.at.Check? || q.at == Done(Stored) || q.at == Done(ReplacesCorrupt) ==> q.op.PutNew?)
  }

  lemma StepKeepsCaused(init: Option<Meta>, s: State, events: seq<Event>, e: Event, p: nat)
    requires Inv(init, s) && SomethingThere(init, s) && p < |s.procs| && Caused(init, events, p, s.procs[p])
    ensures |Step(s, e).procs| == |s.procs| && Caused(init, events + [e], p, Step(s, e).procs[p])
  {
    hide Answered, Inv, SomethingThere, StepsLeft;
    assert e in events + [e] && forall x | x in events :: x in events + [e];
    if e.proc < |s.procs| && !s.procs[e.proc].at.Done? {
      AnsweredShape(s, e.proc);
      AnswerShape(s, e.proc);
      if KEY !in s.store.objects { AbsentMeans(init, s, e.proc); }
    }
  }

  lemma AbsentMeans(init: Option<Meta>, s: State, p: nat)
    requires Inv(init, s) && SomethingThere(init, s) && p < |s.procs| && KEY !in s.store.objects
    ensures init == None && !s.procs[p].at.Write? && (s.procs[p].at.Read? ==> !s.procs[p].op.PutNew?)
  {
    hide FromS3, ToS3, Fn, Fold, HistOk, Visible;
    assert ProcOk(init, s, p);
    NothingThere(init, s);
  }

  lemma NothingThere(init: Option<Meta>, s: State)
    requires Inv(init, s) && KEY !in s.store.objects
    ensures init == None && s.hist == []
  {
    hide FromS3, Effect;
    if s.hist != [] { HistSome(init, s); }
  }

  lemma {:induction false} RunKeepsCaused(s0: State, events: seq<Event>, p: nat)
    requires Init(s0) && p < |s0.procs|
    ensures p < |Run(s0, events).procs| && Caused(Visible(s0.store), events, p, Run(s0, events).procs[p])
  {
    hide Step, Visible, Inv, SomethingThere;
    if events != [] {
      var front, e := events[..|events| - 1], events[|events| - 1];
      assert events == front + [e];
      RunKeepsCaused(s0, front, p);
      RunKeepsInv(s0, front);
      RunKeepsTold(s0, front);
      StepKeepsCaused(Visible(s0.store), Run(s0, front), front, e, p);
    }
  }

  /** The store calls of process p. */
  ghost function CallsOf(events: seq<Event>, p: nat): nat {
    if events == [] then 0
    else CallsOf(events[..|events| - 1], p) + if events[|events| - 1].proc == p then 1 else 0
  }

  lemma {:induction false} ComesNearer(s0: State, events: seq<Event>, p: nat)
    requires p < |s0.procs|
    ensures var s := Run(s0, events);
            p < |s.procs| && (s.procs[p].at.Done? || StepsLeft(s.procs[p].at) + CallsOf(events, p) <=
                                                     StepsLeft(s0.procs[p].at))
  {
    hide Step, StepsLeft;
    if events != [] {
      var front, e := events[..|events| - 1], events[|events| - 1];
      ComesNearer(s0, front, p);
      OneNearer(Run(s0, front), e, p);
    }
  }

  lemma OneNearer(s: State, e: Event, p: nat)
    requires p < |s.procs|
    ensures var t := Step(s, e);
            && p < |t.procs| && (s.procs[p].at.Done? ==> t.procs[p] == s.procs[p])
            && (e.proc != p ==> t.procs[p] == s.procs[p])
            && (e.proc == p && !s.procs[p].at.Done? ==>
                  t.procs[p].at.Done? || StepsLeft(t.procs[p].at) < StepsLeft(s.procs[p].at))
  {
    hide Answered, StepsLeft;
    if e.proc < |s.procs| && !s.procs[e.proc].at.Done? {
      AnsweredShape(s, e.proc);
      AnswerShape(s, e.proc);
    }
  }

  /** However the others interleave, a call is over after two store calls for each of its sixteen attempts and two for
      the create. Unless a store call of its own failed, a PutNew then has stored, merged its claim, met a corrupt
      object or given up, and any other operation has its answer, has given up or found nothing where nothing was. */
  lemma {:induction false} EveryCallEnds(s0: State, events: seq<Event>, p: nat)
    requires Init(s0) && p < |s0.procs| && CallsOf(events, p) >= 34
    ensures var s := Run(s0, events);
            && p < |s.procs| && s.procs[p].at.Done?
            && match s.procs[p].at.outcome
               case Returned(_) => true
               case KeptChanging => true
               case Stored => s.procs[p].op.PutNew?
               case ReplacesCorrupt => s.procs[p].op.PutNew?
               case Absent => !s.procs[p].op.PutNew? && Visible(s0.store) == None
               case Failed => Refused(p) in events || Unanswered(p) in events
  {
    hide Run, Visible, CallsOf;
    ComesNearer(s0, events, p);
    RunKeepsCaused(s0, events, p);
  }

  // ---- claims only accumulate

  ghost function WantedBy(op: Op): set<string> {
    if op.Update? || op.PutNew? then Wanted(op.want) else {}
  }

  ghost function ClaimsBy(op: Op): set<string> {
    if op.Update? || op.PutNew? then Claims(op.want) else {}
  }

  ghost function AllWanted(init: Option<Meta>, hist: seq<Entry>): set<string> {
    if hist == [] then (if init.Some? then Wanted(init.value) else {})
    else AllWanted(init, hist[..|hist| - 1]) + WantedBy(hist[|hist| - 1].op)
  }

  ghost function AllClaims(init: Option<Meta>, hist: seq<Entry>): set<string> {
    if hist == [] then (if init.Some? then Claims(init.value) else {})
    else AllClaims(init, hist[..|hist| - 1]) + ClaimsBy(hist[|hist| - 1].op)
  }

  /** A new object's kind is one of the seven the type has (PutNew turns an empty one into coach); any other text
      would be stored and read back as something else. */
  ghost predicate ProperKind(op: Op) {
    op.PutNew? ==> IsKind(op.want.kind) || op.want.kind == UNKNOWN
  }

  lemma FnSets(op: Op, m: Meta)
    requires WellFormed(m)
    ensures var x := Fn(op, m);
            && (IsKind(x.kind) || x.kind == UNKNOWN)
            && Wanted(x) == Wanted(m) + WantedBy(op) && Claims(x) == Claims(m) + ClaimsBy(op)
            && Class(x.kind) >= Class(m.kind)
            && (op.Update? || op.PutNew? ==> Class(x.kind) >= Class(op.want.kind))
  {
    if op.Update? || op.PutNew? {
      MergeJoins(m, op.want);
    }
  }

  lemma {:induction false} FoldSets(init: Option<Meta>, ops: seq<Op>, hist: seq<Entry>)
    requires HistOk(init, ops, hist) && (forall op | op in ops :: ProperKind(op))
    requires init.Some? ==> WellFormed(init.value)
    requires Fold(init, hist).Some?
    ensures var m := Fold(init, hist).value;
            WellFormed(m) && Wanted(m) == AllWanted(init, hist) && Claims(m) == AllClaims(init, hist)
  {
    hide FromS3, ToS3, Fn, Norm, WellFormed;
    if hist != [] {
      var e := hist[|hist| - 1];
      var front := hist[..|hist| - 1];
      assert e.op in ops;
      if e.created {
        assert front == [];
        NormKeepsSets(e.op.want);
      } else {
        FoldSets(init, ops, front);
        FnSets(e.op, Fold(init, front).value);
        NormKeepsSets(Fn(e.op, Fold(init, front).value));
      }
    }
  }

  lemma {:induction false} EntryContributes(init: Option<Meta>, hist: seq<Entry>, e: Entry)
    requires e in hist
    ensures WantedBy(e.op) <= AllWanted(init, hist) && ClaimsBy(e.op) <= AllClaims(init, hist)
  {
    var front := hist[..|hist| - 1];
    assert hist == front + [hist[|hist| - 1]];
    if e in front {
      EntryContributes(init, front, e);
    }
  }

  /** The ids and protected kinds readers see are exactly those of the start and of the calls that took effect; no
      successful call's claim is missing. */
  lemma ClaimsAreTheUnion(s0: State, events: seq<Event>, p: nat)
    requires Init(s0) && p < |s0.procs|
    requires forall q | q in s0.procs :: ProperKind(q.op)
    ensures var init, s := Visible(s0.store), Run(s0, events);
            Visible(s.store).Some? ==>
              && Wanted(Visible(s.store).value) == AllWanted(init, s.hist)
              && Claims(Visible(s.store).value) == AllClaims(init, s.hist)
              && p < |s.procs|
              && (s.procs[p].at == Done(Stored) || (s.procs[p].at.Done? && s.procs[p].at.outcome.Returned?) ==>
                    && WantedBy(s0.procs[p].op) <= Wanted(Visible(s.store).value)
                    && ClaimsBy(s0.procs[p].op) <= Claims(Visible(s.store).value))
  {
    hide FromS3, ToS3, Fn, Step, Fold, AllWanted, AllClaims;
    var init, s := Visible(s0.store), Run(s0, events);
    RunKeepsInv(s0, events);
    SameProcs(s0, events);
    assert |s.procs| == |Ops(s)| == |Ops(s0)| && Ops(s)[p] == Ops(s0)[p];
    if Visible(s.store).Some? {
      VisibleWellFormed(s0.store);
      forall op | op in Ops(s) ensures ProperKind(op) {
        assert op in Ops(s0);
      }
      FoldSets(init, Ops(s), s.hist);
      Linearizable(s0, events, p);
      forall i | 0 <= i < |s.hist|
        ensures WantedBy(s.hist[i].op) <= AllWanted(init, s.hist) && ClaimsBy(s.hist[i].op) <= AllClaims(init, s.hist)
      {
        EntryContributes(init, s.hist, s.hist[i]);
      }
    }
  }

  lemma VisibleWellFormed(s: Store)
    ensures Visible(s).Some? ==> WellFormed(Visible(s).value)
  {
    if KEY in s.objects { FromS3WellFormed(s.objects[KEY].meta); }
  }

  /** No step takes away a claim or an id, or lowers the class. */
  lemma NothingIsForgotten(s0: State, events: seq<Event>, e: Event)
    requires Init(s0)
    requires forall q | q in s0.procs :: ProperKind(q.op)
    ensures var before, after := Visible(Run(s0, events).store), Visible(Run(s0, events + [e]).store);
            before.Some? ==>
              && after.Some?
              && Wanted(before.value) <= Wanted(after.value)
              && Claims(before.value) <= Claims(after.value)
              && Class(before.value.kind) <= Class(after.value.kind)
  {
    hide FromS3, ToS3, Fn, Answered, Wanted, Claims, HistOk;
    var init, s, t := Visible(s0.store), Run(s0, events), Run(s0, events + [e]);
    assert (events + [e])[..|events|] == events;
    RunKeepsInv(s0, events);
    RunKeepsInv(s0, events + [e]);
    OneEntry(s, e);
    if Visible(s.store).Some? && t.hist != s.hist {
      var x := t.hist[|s.hist|];
      AppendFacts(init, s.hist, x, 0);
      VisibleWellFormed(s.store);
      CreatedOnce(init, s, t);
      FnSets(x.op, Visible(s.store).value);
      NormKeepsSets(Fn(x.op, Visible(s.store).value));
    }
  }

  lemma CreatedOnce(init: Option<Meta>, s: State, t: State)
    requires HistOk(init, Ops(t), t.hist) && s.hist < t.hist && Fold(init, s.hist).Some?
    ensures !t.hist[|s.hist|].created
  {
    if s.hist == [] { assert Fold(init, s.hist) == init; }
  }

  lemma OneEntry(s: State, e: Event)
    ensures Step(s, e).hist == s.hist || (|Step(s, e).hist| == |s.hist| + 1 && s.hist < Step(s, e).hist)
    ensures Step(s, e).hist != s.hist ==> Step(s, e).hist == s.hist + [Step(s, e).hist[|s.hist|]]
  {
    hide Step;
    StepEffect(s, e);
  }

  /** Where a read leaves its process. */
  function AfterRead(op: Op, attempt: nat, store: Store): Control {
    if KEY !in store.objects then Done(Absent)
    else
      var o := store.objects[KEY];
      var have := FromS3(o.meta);
      if EqualMeta(have, Fn(op, have)) then Done(Returned(Fn(op, have))) else Write(attempt, o.etag, have)
  }

  /** Where a conditional rewrite leaves its process. */
  function AfterWrite(attempt: nat, next: Meta, status: Status): Control {
    if status == Changed then (if attempt + 1 < ATTEMPTS then Read(attempt + 1) else Done(KeptChanging))
    else if status == NotFound then Done(Failed)
    else Done(Returned(next))
  }

  lemma ReadShape(s: State, p: nat)
    requires p < |s.procs| && s.procs[p].at.Read?
    ensures var t := Answered(s, p);
            && t.store == s.store && |t.procs| == |s.procs| && t.procs[p].op == s.procs[p].op
            && t.procs[p].at == AfterRead(s.procs[p].op, s.procs[p].at.attempt, s.store)
  {
    hide FromS3, ToS3, Fn, EqualMeta;
  }

  lemma WriteShape(s: State, p: nat)
    requires p < |s.procs| && s.procs[p].at.Write?
    ensures var t := Answered(s, p);
            var at := s.procs[p].at;
            var next := Fn(s.procs[p].op, at.have);
            var (store, status) := RewriteStep(s.store, KEY, Some(at.etag), ToS3(next));
            && |t.procs| == |s.procs| && t.store == store && t.procs[p].at == AfterWrite(at.attempt, next, status)
  {
    hide FromS3, ToS3, Fn, EqualMeta;
  }

  /** Where one pass of the retry loop that answered r leaves the call. */
  function AfterPass(attempt: nat, r: Option<V.Result>): Control {
    match r
    case None => if attempt + 1 < ATTEMPTS then Read(attempt + 1) else Done(KeptChanging)
    case Some(Ok(m)) => Done(Returned(m))
    case Some(Missing) => Done(Absent)
    case Some(Lost) => Done(Outcome.Failed)
    case Some(Failed) => Done(Outcome.Failed)
    case Some(KeptChanging) => Done(KeptChanging)
  }

  /** The read and the rewrite of a pass as events of process p. */
  function ReadEvent(p: nat, o: V.Other): Event {
    if o.readFails then Refused(p) else Call(p)
  }

  function WriteEvent(p: nat, o: V.Other): Event {
    match o.write
    case Answered => Call(p)
    case Refused => Event.Refused(p)
    case Unanswered => Event.Unanswered(p)
  }

  /** A read step and the write step that follows it, with another process's act between them, are one pass of the
      retry loop that MutateMeta runs, also when one of the two calls fails. */
  lemma TwoStepsAreOneAttempt(s: State, p: nat, o: V.Other, t: Store, r: Option<V.Result>, s1: State)
    requires p < |s.procs| && s.procs[p].at.Read?
    requires var op := s.procs[p].op; (t, r) == V.Attempt(s.store, KEY, m => Fn(op, m), o)
    requires s1 == Step(s, ReadEvent(p, o))
    ensures |s1.procs| == |s.procs| && s1.store == s.store
    ensures !s1.procs[p].at.Write? ==> t == s.store && s1.procs[p].at == AfterPass(s.procs[p].at.attempt, r)
    ensures s1.procs[p].at.Write? ==>
              var s2 := Step(s1.(store := V.Interfere(s.store, KEY, o.act)), WriteEvent(p, o));
              && |s2.procs| == |s.procs| && t == s2.store
              && s2.procs[p].at == AfterPass(s.procs[p].at.attempt, r)
  {
    hide FromS3, ToS3, Fn, EqualMeta, Answered, V.Interfere, RewriteStep;
    ReadShape(s, p);
    if s1.procs[p].at.Write? {
      WriteShape(s1.(store := V.Interfere(s.store, KEY, o.act)), p);
      Statuses(V.Interfere(s.store, KEY, o.act), s1.procs[p].at.etag, ToS3(Fn(s.procs[p].op, s1.procs[p].at.have)));
    }
  }

  lemma Statuses(s: Store, etag: nat, meta: Stored)
    ensures RewriteStep(s, KEY, Some(etag), meta).1 in {Fine, Changed, NotFound}
  {
  }

  // ---- the bad flag

  /** A verdict is on record for the version that gave it exactly when the version is clean and not "0" or "1":
      "0" reads back as no flag, "1" and an unusable version as a flag without a version. */
  lemma MarkBadIsSeen(m: Meta, ver: string)
    requires WellFormed(m)
    ensures var r := Norm(Fn(MarkBad(ver), m));
            && (r.bad <==> CleanVer(ver) != "0")
            && (r.bad && r.badVer != "" && r.badVer == ver <==>
               ver != "" && ver != "0" && ver != "1" && CleanVer(ver) == ver)
            && r.(bad := m.bad, badVer := m.badVer) == m
  {
    hide FromS3, ToS3;
    NormFields(Fn(MarkBad(ver), m));
    RoundTrip(m);
    NormFields(m);
    CleanVerStable(ver);
  }

  /** The verdict of a version "0" is lost at once. */
  lemma ZeroVerdictIsLost(m: Meta)
    requires WellFormed(m)
    ensures !Norm(Fn(MarkBad("0"), m)).bad
  {
    hide FromS3, ToS3, Fn;
    assert CleanVer("0") == "0" by { TrimSpec("0"); }
    MarkBadIsSeen(m, "0");
  }

  /** Clearing undoes any verdict. */
  lemma ClearUndoesMark(m: Meta, ver: string)
    requires WellFormed(m) && !m.bad
    ensures Norm(Fn(ClearBad, Norm(Fn(MarkBad(ver), m)))) == m
  {
    hide FromS3, ToS3;
    MarkBadIsSeen(m, ver);
    RoundTrip(m);
  }

  // ---- what each call does to the fields readers see

  /** What readers see after an effect is what they saw before it, put through the caller's own operation. */
  lemma OneEffect(s0: State, events: seq<Event>, p: nat, i: nat, n: nat) returns (e: Entry)
    requires Init(s0) && EffectAt(s0, events, p, i, n)
    ensures p < |s0.procs| && e.op == s0.procs[p].op && i < |Run(s0, events[..n + 1]).hist|
            && e == Run(s0, events[..n + 1]).hist[i]
    ensures var before, after := Visible(Run(s0, events[..n]).store), Visible(Run(s0, events[..n + 1]).store);
            && after == Effect(e, before) && (before.Some? ==> WellFormed(before.value))
            && (e.created <==> before.None?) && (e.created ==> e.op.PutNew?)
  {
    hide FromS3, ToS3, Fn, Step, Effect, WellFormed, Norm;
    var front, whole := events[..n], events[..n + 1];
    assert whole[..n] == front;
    RunKeepsInv(s0, front);
    RunKeepsInv(s0, whole);
    SameProcs(s0, front);
    var init, s, t := Visible(s0.store), Run(s0, front), Run(s0, whole);
    assert |s.procs| == |Ops(s)| == |Ops(s0)| && Ops(s)[p] == Ops(s0)[p];
    OneEntry(s, events[n]);
    StepEffect(s, events[n]);
    e := t.hist[i];
    AppendFacts(init, s.hist, e, 0);
    VisibleWellFormed(s.store);
    SameProcs(s0, whole);
    assert Ops(t)[e.proc] == e.op;
    CreatesOnFree(init, s.hist, Ops(t), e);
  }

  lemma CreatesOnFree(init: Option<Meta>, hist: seq<Entry>, ops: seq<Op>, e: Entry)
    requires HistOk(init, ops, hist + [e])
    ensures e.created <==> Fold(init, hist).None?
    ensures e.created ==> e.op.PutNew?
  {
    hide Effect;
    assert (hist + [e])[|hist|] == e;
    if hist == [] {
      assert Fold(init, []) == init;
      assert (hist + [e])[0] == e;
    } else {
      assert (hist + [e])[0] == hist[0];
      forall k | 0 <= k < |hist| ensures hist[k].created ==> hist[k].op.PutNew? { assert (hist + [e])[k] == hist[k]; }
      EffectSome(init, hist);
    }
  }

  /** A mark changes its own fields and no other: the corrupt mark sets the flag, clearing takes verdict and version
      away, a verdict touches only these two. */
  lemma MarksTouchTheirOwn(s0: State, events: seq<Event>, p: nat, i: nat, n: nat)
    requires Init(s0) && EffectAt(s0, events, p, i, n)
    ensures p < |s0.procs|
    ensures var before, after := Visible(Run(s0, events[..n]).store), Visible(Run(s0, events[..n + 1]).store);
            match s0.procs[p].op
            case MarkCorrupt => before.Some? && after == Some(before.value.(corrupt := true))
            case ClearBad => before.Some? && after == Some(before.value.(bad := false, badVer := ""))
            case MarkBad(_) => before.Some? && after.Some?
                && after.value == before.value.(bad := after.value.bad, badVer := after.value.badVer)
            case _ => after.Some?
  {
    hide FromS3, ToS3, Run, Init;
    var e := OneEffect(s0, events, p, i, n);
    var before := Visible(Run(s0, events[..n]).store);
    if before.Some? {
      NormFields(Fn(e.op, before.value));
      NormFields(before.value);
      RoundTrip(before.value);
    }
  }

  /** The operation says the stored bytes are corrupt. */
  ghost predicate SaysCorrupt(op: Op) {
    op.MarkCorrupt? || ((op.Update? || op.PutNew?) && op.want.corrupt)
  }

  lemma EffectCorrupt(e: Entry, m: Option<Meta>)
    requires e.created ==> m.None? && e.op.PutNew?
    requires !e.created ==> m.Some?
    ensures var t := Effect(e, m);
            t.Some? && (t.value.corrupt <==> (m.Some? && m.value.corrupt) || SaysCorrupt(e.op))
  {
    hide Norm;
    if e.created { NormFields(e.op.want); } else { NormFields(Fn(e.op, m.value)); }
  }

  /** The object after a history that is not empty, and how it came from the one before. */
  lemma LastEffect(init: Option<Meta>, ops: seq<Op>, hist: seq<Entry>)
    requires HistOk(init, ops, hist) && hist != []
    ensures var front, e := hist[..|hist| - 1], hist[|hist| - 1];
            && HistOk(init, ops, front) && hist == front + [e]
            && Fold(init, hist) == Effect(e, Fold(init, front)) && Fold(init, hist).Some?
            && (e.created <==> Fold(init, front).None?) && (e.created ==> e.op.PutNew? && front == [])
  {
    hide Effect;
    var front, e := hist[..|hist| - 1], hist[|hist| - 1];
    assert hist == front + [e];
    CreatesOnFree(init, front, ops, e);
    EffectSome(init, hist);
  }

  lemma {:induction false} FoldCorrupt(init: Option<Meta>, ops: seq<Op>, hist: seq<Entry>)
    requires HistOk(init, ops, hist) && Fold(init, hist).Some?
    ensures Fold(init, hist).value.corrupt <==>
            (init.Some? && init.value.corrupt) || exists k :: 0 <= k < |hist| && SaysCorrupt(hist[k].op)
  {
    hide Fold, Effect, HistOk;
    if hist == [] {
      NoEffects(init);
    } else {
      var n := |hist| - 1;
      LastEffect(init, ops, hist);
      EffectCorrupt(hist[n], Fold(init, hist[..n]));
      if Fold(init, hist[..n]).Some? {
        FoldCorrupt(init, ops, hist[..n]);
      } else {
        StartsFree(init, ops, hist[..n]);
      }
      assert forall k | 0 <= k < n :: hist[..n][k] == hist[k];
    }
  }

  lemma NoEffects(init: Option<Meta>)
    ensures Fold(init, []) == init
  {
  }

  lemma StartsFree(init: Option<Meta>, ops: seq<Op>, hist: seq<Entry>)
    requires HistOk(init, ops, hist) && Fold(init, hist).None?
    ensures init.None? && hist == []
  {
    hide Effect;
    if hist != [] { EffectSome(init, hist); }
  }

  /** Readers see the object as corrupt exactly when it was at the start or a call that says so took effect: a mark, or
      a claim that comes with the flag. No other call sets the flag, and none takes it away. */
  lemma CorruptIsSeen(s0: State, events: seq<Event>)
    requires Init(s0)
    ensures var init, s := Visible(s0.store), Run(s0, events);
            Visible(s.store).Some? ==>
              (Visible(s.store).value.corrupt <==>
               (init.Some? && init.value.corrupt) || exists k :: 0 <= k < |s.hist| && SaysCorrupt(s.hist[k].op))
  {
    hide FromS3, ToS3, Run, Fold, HistOk, Init;
    RunKeepsInv(s0, events);
    var init, s := Visible(s0.store), Run(s0, events);
    if Visible(s.store).Some? { FoldCorrupt(init, Ops(s), s.hist); }
  }

  /** Once a call that marks the object corrupt has answered, every reader sees it so from then on. */
  lemma CorruptStays(s0: State, events: seq<Event>, p: nat, m: nat, n: nat)
    requires Init(s0) && m <= n <= |events| && p < |s0.procs| && s0.procs[p].op.MarkCorrupt?
    requires var s := Run(s0, events[..m]);
             p < |s.procs| && s.procs[p].at.Done? && s.procs[p].at.outcome.Returned?
    ensures var seen := Visible(Run(s0, events[..n]).store); seen.Some? && seen.value.corrupt
  {
    hide FromS3, ToS3, Step, Fn, Run, Init, Fold, HistOk;
    Grows(s0, events, m, n);
    var init, s := Visible(s0.store), Run(s0, events[..n]);
    RunKeepsInv(s0, events[..n]);
    SameProcs(s0, events[..n]);
    assert |s.procs| == |Ops(s)| == |Ops(s0)| && Ops(s)[p] == Ops(s0)[p];
    assert ProcOk(init, s, p);
    var i: nat :| TookEffectAt(init, s, p, i, s.procs[p].at.outcome.m);
    assert SaysCorrupt(s.hist[i].op);
    LastEffect(init, Ops(s), s.hist);
    CorruptIsSeen(s0, events[..n]);
  }

  /** Seen as corrupt once, it is seen so from then on. */
  lemma StillCorrupt(s0: State, events: seq<Event>, m: nat, n: nat)
    requires Init(s0) && m <= n <= |events|
    requires var seen := Visible(Run(s0, events[..m]).store); seen.Some? && seen.value.corrupt
    ensures var seen := Visible(Run(s0, events[..n]).store); seen.Some? && seen.value.corrupt
  {
    hide FromS3, ToS3, Step, Fn, Run, Init, Fold, HistOk, SaysCorrupt;
    Grows(s0, events, m, n);
    RunKeepsInv(s0, events[..m]);
    RunKeepsInv(s0, events[..n]);
    CorruptIsSeen(s0, events[..m]);
    CorruptIsSeen(s0, events[..n]);
    var init, s, t := Visible(s0.store), Run(s0, events[..m]), Run(s0, events[..n]);
    assert forall k | 0 <= k < |s.hist| :: t.hist[k] == s.hist[k];
    if t.hist == [] { assert s.hist == []; } else { LastEffect(init, Ops(t), t.hist); }
  }

  lemma CheckShape(s: State, p: nat)
    requires p < |s.procs| && s.procs[p].at.Check?
    ensures var t := Answered(s, p); var seen := Visible(s.store);
            |t.procs| == |s.procs| && t.procs[p].at == if seen.Some? && seen.value.corrupt then Done(ReplacesCorrupt)
            else Read(0)
  {
    hide FromS3;
  }

  lemma TurnsAtTheCheck(s: State, e: Event, p: nat)
    requires p < |s.procs| && Step(s, e).procs[p].at == Done(ReplacesCorrupt) != s.procs[p].at
    ensures var seen := Visible(s.store); seen.Some? && seen.value.corrupt
  {
    hide FromS3, ToS3, Fn, EqualMeta, RewriteStep, PutStep;
    StepEffect(s, e);
    if s.procs[p].at.Check? { CheckShape(s, p); }
  }

  lemma {:induction false} ReplacedIsCorrupt(s0: State, events: seq<Event>, p: nat)
    requires Init(s0) && p < |s0.procs|
    ensures var s := Run(s0, events); var seen := Visible(s.store);
            p < |s.procs| && (s.procs[p].at == Done(ReplacesCorrupt) ==> seen.Some? && seen.value.corrupt)
  {
    hide Step, Visible;
    SameProcs(s0, events);
    var s := Run(s0, events);
    assert |s.procs| == |Ops(s)| == |Ops(s0)|;
    if events != [] && s.procs[p].at == Done(ReplacesCorrupt) {
      hide Run, Init;
      var n := |events| - 1;
      ReplacedIsCorrupt(s0, events[..n], p);
      LastStep(s0, events);
      var front := Run(s0, events[..n]);
      if front.procs[p].at != Done(ReplacesCorrupt) { TurnsAtTheCheck(front, events[n], p); }
      StillCorrupt(s0, events, n, |events|);
    }
  }

  lemma LastStep(s0: State, events: seq<Event>)
    requires events != []
    ensures Run(s0, events) == Step(Run(s0, events[..|events| - 1]), events[|events| - 1])
            && events[..|events|] == events
  {
    hide Step;
  }

  /** A PutNew turns to replacing the object only if readers see it as corrupt, then and ever after; and it does turn
      to it when they see so at the moment it looks. */
  lemma OnlyCorruptIsReplaced(s0: State, events: seq<Event>, p: nat)
    requires Init(s0) && p < |s0.procs|
    ensures var s := Run(s0, events); var seen := Visible(s.store);
            && p < |s.procs|
            && (s.procs[p].at == Done(ReplacesCorrupt) ==> seen.Some? && seen.value.corrupt)
            && (s.procs[p].at == Check ==>
                  var t := Run(s0, events + [Call(p)]);
                  p < |t.procs| && (t.procs[p].at == Done(ReplacesCorrupt) <==> seen.Some? && seen.value.corrupt))
  {
    hide Step, Answered, Visible, Run, Init;
    ReplacedIsCorrupt(s0, events, p);
    var s := Run(s0, events);
    if s.procs[p].at == Check {
      LastStep(s0, events + [Call(p)]);
      assert (events + [Call(p)])[..|events|] == events;
      CallIsAnswered(s, p);
      CheckShape(s, p);
    }
  }

  lemma CallIsAnswered(s: State, p: nat)
    requires p < |s.procs| && !s.procs[p].at.Done?
    ensures Step(s, Call(p)) == Answered(s, p)
  {
    hide Answered;
  }

  datatype Field = Patch | Source | Container | StoredAt | Sha256

  ghost function TextOf(m: Meta, f: Field): string {
    match f
    case Patch => m.patch
    case Source => m.source
    case Container => m.container
    case StoredAt => m.storedAt
    case Sha256 => m.sha256
  }

  /** The text a call brings: that of its claim; of a patch what is usable of it. */
  ghost function Given(op: Op, f: Field): string {
    if !(op.Update? || op.PutNew?) then ""
    else if f == Patch then CleanPatch(op.want.patch) else TextOf(op.want, f)
  }

  /** t is the first text that is not empty: start's, or the one given first. */
  ghost predicate FirstOf(t: string, start: string, hist: seq<Entry>, f: Field) {
    if start != "" then t == start
    else
      || (t == "" && forall k | 0 <= k < |hist| :: Given(hist[k].op, f) == "")
      || (t != "" && exists k :: FirstGivenAt(t, hist, f, k))
  }

  ghost predicate FirstGivenAt(t: string, hist: seq<Entry>, f: Field, k: int) {
    0 <= k < |hist| && Given(hist[k].op, f) == t && forall j | 0 <= j < k :: Given(hist[j].op, f) == ""
  }

  lemma FirstAppend(t: string, start: string, hist: seq<Entry>, e: Entry, f: Field)
    requires FirstOf(t, start, hist, f)
    ensures FirstOf(if t != "" then t else Given(e.op, f), start, hist + [e], f)
  {
    var all := hist + [e];
    assert forall k | 0 <= k < |hist| :: all[k] == hist[k];
    if start == "" {
      if t != "" {
        var k :| FirstGivenAt(t, hist, f, k);
        assert FirstGivenAt(t, all, f, k);
      } else if Given(e.op, f) != "" {
        assert FirstGivenAt(Given(e.op, f), all, f, |hist|);
      }
    }
  }

  lemma EffectText(e: Entry, m: Option<Meta>, f: Field)
    requires e.created ==> m.None? && e.op.PutNew?
    requires !e.created ==> m.Some? && WellFormed(m.value)
    ensures var t := Effect(e, m);
            var before := if m.Some? then TextOf(m.value, f) else "";
            t.Some? && WellFormed(t.value) && TextOf(t.value, f) == if before != "" then before else Given(e.op, f)
  {
    hide FromS3, ToS3, CleanPatch, WellFormed, CleanAccounts, SortedKinds, MergedKind, Without, CleanVer, ReadKind;
    if e.created {
      NormFields(e.op.want);
      NormWellFormed(e.op.want);
    } else {
      var x := Fn(e.op, m.value);
      NormFields(x);
      NormWellFormed(x);
      if e.op.Update? || e.op.PutNew? { CleanPatchStable(e.op.want.patch); }
      V.PatchIsClean(m.value);
    }
  }

  lemma NormWellFormed(m: Meta)
    ensures WellFormed(Norm(m))
  {
    hide FromS3, ToS3;
    FromS3WellFormed(ToS3(m));
  }

  lemma {:induction false} FoldText(init: Option<Meta>, ops: seq<Op>, hist: seq<Entry>, f: Field)
    requires HistOk(init, ops, hist) && Fold(init, hist).Some? && (init.Some? ==> WellFormed(init.value))
    ensures WellFormed(Fold(init, hist).value)
    ensures FirstOf(TextOf(Fold(init, hist).value, f), if init.Some? then TextOf(init.value, f) else "", hist, f)
  {
    hide Fold, Effect, HistOk, WellFormed, Given, TextOf;
    if hist == [] {
      NoEffects(init);
    } else {
      var n := |hist| - 1;
      LastEffect(init, ops, hist);
      var start := if init.Some? then TextOf(init.value, f) else "";
      var front := Fold(init, hist[..n]);
      if front.Some? {
        FoldText(init, ops, hist[..n], f);
      } else {
        StartsFree(init, ops, hist[..n]);
      }
      EffectText(hist[n], front, f);
      FirstAppend(if front.Some? then TextOf(front.value, f) else "", start, hist[..n], hist[n], f);
    }
  }

  /** The first text wins: patch, source, container, time of storing and checksum are those of the start, or else of
      the first call that brought one; nothing overwrites them later. */
  lemma FirstTextWins(s0: State, events: seq<Event>, f: Field)
    requires Init(s0)
    ensures var init, s := Visible(s0.store), Run(s0, events);
            Visible(s.store).Some? ==>
              FirstOf(TextOf(Visible(s.store).value, f), if init.Some? then TextOf(init.value, f) else "", s.hist, f)
  {
    hide FromS3, ToS3, Run, Fold, HistOk, Init, FirstOf, WellFormed;
    RunKeepsInv(s0, events);
    VisibleWellFormed(s0.store);
    var init, s := Visible(s0.store), Run(s0, events);
    if Visible(s.store).Some? { FoldText(init, Ops(s), s.hist, f); }
  }

  /** A verdict with a version, or the clearing of one. */
  ghost predicate Decides(op: Op) {
    op.MarkBad? || op.ClearBad? || ((op.Update? || op.PutNew?) && op.want.bad && op.want.badVer != "")
  }

  /** A claim that comes with the flag but no version. */
  ghost predicate BareFlag(op: Op) {
    (op.Update? || op.PutNew?) && op.want.bad && op.want.badVer == ""
  }

  /** The flag and the version such a call puts on record. */
  ghost function Decision(op: Op): (bool, string)
    requires Decides(op)
  {
    var ver := if op.MarkBad? then op.ver else if op.ClearBad? then "0" else op.want.badVer;
    (CleanVer(ver) != "0", if CleanVer(ver) == "0" || CleanVer(ver) == "1" then "" else CleanVer(ver))
  }

  /** k is the last place at which a call decided. */
  ghost predicate LastDecision(hist: seq<Entry>, k: int) {
    0 <= k < |hist| && Decides(hist[k].op) && forall j | k < j < |hist| :: !Decides(hist[j].op)
  }

  ghost predicate Flagged(hist: seq<Entry>, k: int) {
    exists j :: k < j < |hist| && 0 <= j && BareFlag(hist[j].op)
  }

  /** Flag and version are those of the last decision, or of the start without one; a bare flag later sets the flag. */
  ghost predicate VerdictStands(m: Meta, start: (bool, string), hist: seq<Entry>) {
    && (forall k | LastDecision(hist, k) ::
          var d := Decision(hist[k].op); (m.bad <==> d.0 || Flagged(hist, k)) && m.badVer == d.1)
    && ((forall k | 0 <= k < |hist| :: !Decides(hist[k].op)) ==>
          (m.bad <==> start.0 || Flagged(hist, -1)) && m.badVer == start.1)
  }

  lemma EffectVerdict(e: Entry, m: Option<Meta>)
    requires e.created ==> m.None? && e.op.PutNew?
    requires !e.created ==> m.Some? && WellFormed(m.value)
    ensures var t := Effect(e, m);
            var bad, ver := m.Some? && m.value.bad, if m.Some? then m.value.badVer else "";
            && t.Some? && WellFormed(t.value)
            && (if Decides(e.op) then (t.value.bad, t.value.badVer) == Decision(e.op)
                else (t.value.bad <==> bad || BareFlag(e.op)) && t.value.badVer == ver)
  {
    hide FromS3, ToS3, CleanVer, CleanPatch, CleanAccounts, SortedKinds, WellFormed;
    CleanVerStable("");
    ZeroStaysZero();
    if e.created {
      NormFields(e.op.want);
      NormWellFormed(e.op.want);
      NoVersion(e.op.want);
    } else {
      VerIsClean(m.value);
      var x := Fn(e.op, m.value);
      NormFields(x);
      NormWellFormed(x);
    }
  }

  lemma ZeroStaysZero()
    ensures CleanVer("0") == "0"
  {
    TrimSpec("0");
  }

  lemma NoVersion(m: Meta)
    ensures !Norm(m).bad ==> Norm(m).badVer == ""
  {
    hide FromS3, ToS3;
    NormFields(m);
  }

  lemma VerIsClean(m: Meta)
    requires WellFormed(m)
    ensures CleanVer(m.badVer) == m.badVer && m.badVer != "0" && m.badVer != "1" && (m.badVer != "" ==> m.bad)
  {
  }

  lemma VerdictAppend(m: Meta, t: Meta, start: (bool, string), hist: seq<Entry>, e: Entry)
    requires VerdictStands(m, start, hist)
    requires if Decides(e.op) then (t.bad, t.badVer) == Decision(e.op)
             else (t.bad <==> m.bad || BareFlag(e.op)) && t.badVer == m.badVer
    ensures VerdictStands(t, start, hist + [e])
  {
    hide Decision, BareFlag, Decides;
    var all := hist + [e];
    assert all[|hist|] == e && forall k | 0 <= k < |hist| :: all[k] == hist[k];
    forall k | -1 <= k < |hist| ensures Flagged(all, k) <==> Flagged(hist, k) || BareFlag(e.op) {
      FlaggedAppend(hist, e, k);
    }
    forall k | LastDecision(all, k)
      ensures var d := Decision(all[k].op); (t.bad <==> d.0 || Flagged(all, k)) && t.badVer == d.1
    {
      if k < |hist| {
        assert !Decides(all[|hist|].op) && LastDecision(hist, k);
      }
    }
    if forall k | 0 <= k < |all| :: !Decides(all[k].op) {
      assert !Decides(all[|hist|].op);
      forall k | 0 <= k < |hist| ensures !Decides(hist[k].op) { assert hist[k] == all[k]; }
    }
  }

  lemma FlaggedAppend(hist: seq<Entry>, e: Entry, k: int)
    requires -1 <= k < |hist|
    ensures Flagged(hist + [e], k) <==> Flagged(hist, k) || BareFlag(e.op)
  {
    hide BareFlag;
    var all := hist + [e];
    if BareFlag(e.op) { assert all[|hist|] == e; }
    if Flagged(hist, k) {
      var j :| k < j < |hist| && 0 <= j && BareFlag(hist[j].op);
      assert all[j] == hist[j];
    }
    if Flagged(all, k) {
      var j :| k < j < |all| && 0 <= j && BareFlag(all[j].op);
      if j < |hist| { assert all[j] == hist[j]; }
    }
  }

  /** No object: no verdict. */
  ghost function Nothing(): (m: Meta)
    ensures !m.bad && m.badVer == ""
  {
    Meta("", "", [], "", "", "", "", false, "", false, [])
  }

  lemma {:induction false} FoldVerdict(init: Option<Meta>, ops: seq<Op>, hist: seq<Entry>)
    requires HistOk(init, ops, hist) && Fold(init, hist).Some? && (init.Some? ==> WellFormed(init.value))
    ensures WellFormed(Fold(init, hist).value)
    ensures VerdictStands(Fold(init, hist).value,
                          if init.Some? then (init.value.bad, init.value.badVer) else (false, ""), hist)
  {
    hide Fold, Effect, HistOk, WellFormed, Decides, Decision, BareFlag;
    var start := if init.Some? then (init.value.bad, init.value.badVer) else (false, "");
    if hist == [] {
      NoEffects(init);
      assert !Flagged(hist, -1);
    } else {
      hide VerdictStands;
      var n := |hist| - 1;
      LastEffect(init, ops, hist);
      var front := Fold(init, hist[..n]);
      if front.Some? {
        FoldVerdict(init, ops, hist[..n]);
        EffectVerdict(hist[n], front);
        VerdictAppend(front.value, Fold(init, hist).value, start, hist[..n], hist[n]);
      } else {
        StartsFree(init, ops, hist[..n]);
        EffectVerdict(hist[n], front);
        var nothing := Nothing();
        NothingStands(nothing);
        VerdictAppend(nothing, Fold(init, hist).value, start, hist[..n], hist[n]);
      }
    }
  }

  lemma NothingStands(m: Meta)
    requires !m.bad && m.badVer == ""
    ensures VerdictStands(m, (false, ""), [])
  {
    assert !Flagged([], -1);
  }

  /** The last verdict stands: the flag and the version readers see are those of the last call that decided, a verdict,
      a claim with one, or a clearing; only a claim with a bare flag can set the flag after it, never the version. */
  lemma LastVerdictStands(s0: State, events: seq<Event>)
    requires Init(s0)
    ensures var init, s := Visible(s0.store), Run(s0, events);
            Visible(s.store).Some? ==>
              VerdictStands(Visible(s.store).value,
                            if init.Some? then (init.value.bad, init.value.badVer) else (false, ""), s.hist)
  {
    hide FromS3, ToS3, Run, Fold, HistOk, Init, VerdictStands, WellFormed;
    RunKeepsInv(s0, events);
    VisibleWellFormed(s0.store);
    var init, s := Visible(s0.store), Run(s0, events);
    if Visible(s.store).Some? { FoldVerdict(init, Ops(s), s.hist); }
  }
}
