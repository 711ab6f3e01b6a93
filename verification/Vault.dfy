/** Read-modify-write of a replay's metadata and the storing of a replay (internal/vault/vault.go), run by one
    caller while other processes may change the object between its store calls, and store calls may fail. */
module Vault {
  import opened Wrappers
  import opened Kinds
  import opened Metadata
  import opened MergeAlgebra
  import opened ObjectStore

  const ATTEMPTS: nat := 16

  datatype Result = Ok(meta: Meta) | Missing | KeptChanging | Lost | Failed

  /** What other processes do to an object between two store calls. */
  datatype Act = Nothing | Rewrites(meta: Stored) | Puts(data: Bytes, meta: Stored) | Deletes

  /** How a store call ends: answered, refused without effect, or carried out while the caller sees a failure. */
  datatype Fault = Answered | Refused | Unanswered

  /** What happens around one pass of the retry loop. */
  datatype Other = Other(readFails: bool, act: Act, write: Fault)

  const QUIET := Other(false, Nothing, Answered)

  /** Another process's write, in a pass without failures. */
  predicate Overtakes(o: Other) {
    (o.act.Rewrites? || o.act.Puts?) && !o.readFails && o.write.Answered?
  }

  function Interfere(s: Store, key: string, act: Act): Store {
    match act
    case Nothing => s
    case Rewrites(meta) => RewriteStep(s, key, None, meta).0
    case Puts(data, meta) => PutStep(s, key, data, meta, false).0
    case Deletes => DeleteStep(s, key)
  }

  function Between(others: seq<Other>, attempt: nat): Other {
    if attempt < |others| then others[attempt] else QUIET
  }

  /** One pass of the retry loop: the store after it, and the answer when it ends the call. */
  function Attempt(s: Store, key: string, fn: Meta -> Meta, o: Other): (Store, Option<Result>) {
    if o.readFails then (s, Some(Failed))
    else if key !in s.objects then (s, Some(Missing))
    else
      var have := FromS3(s.objects[key].meta);
      var next := fn(have);
      if EqualMeta(have, next) then (s, Some(Ok(next)))
      else Rewritten(Interfere(s, key, o.act), key, s.objects[key].etag, next, o.write)
  }

  /** The conditional rewrite of a pass. */
  function Rewritten(s: Store, key: string, etag: nat, next: Meta, fault: Fault): (Store, Option<Result>) {
    if fault.Refused? then (s, Some(Failed))
    else
      var (t, st) := RewriteStep(s, key, Some(etag), ToS3(next));
      (t, if fault.Unanswered? then Some(Failed)
          else if st == Changed then None
          else if st == Fine then Some(Ok(next))
          else Some(Lost))
  }

  function Mutate(s: Store, key: string, fn: Meta -> Meta, others: seq<Other>, attempt: nat := 0): (Store, Result)
    requires attempt <= ATTEMPTS
    decreases ATTEMPTS - attempt, |others|
  {
    if attempt == ATTEMPTS then (s, KeptChanging)
    else
      var (t, r) := Attempt(s, key, fn, Between(others, attempt));
      if r.Some? then (t, r.value) else Mutate(t, key, fn, others, attempt + 1)
  }

  /** What other processes do between two calls. */
  type Interference = seq<(string, Act)>

  function Turn(others: seq<Interference>, n: nat): Interference {
    if n < |others| then others[n] else []
  }

  lemma InterfereKeepsMinted(s: Store, key: string, act: Act)
    requires Minted(s)
    ensures Minted(Interfere(s, key, act)) && Interfere(s, key, act).objects - {key} == s.objects - {key}
  {
    match act {
      case Nothing =>
      case Rewrites(meta) => WritesAreFresh(s, key, "", meta, false, None);
      case Puts(data, meta) => WritesAreFresh(s, key, data, meta, false, None);
      case Deletes => assert DeleteStep(s, key).objects - {key} == s.objects - {key};
    }
  }

  /** A pass writes nothing but its own key. */
  lemma AttemptFrame(s: Store, key: string, fn: Meta -> Meta, o: Other)
    requires Minted(s)
    ensures var t := Attempt(s, key, fn, o).0; Minted(t) && t.objects - {key} == s.objects - {key}
  {
    hide FromS3, ToS3, EqualMeta, Minted, Interfere, RewriteStep;
    if key in s.objects {
      InterfereKeepsMinted(s, key, o.act);
      var next := fn(FromS3(s.objects[key].meta));
      WritesAreFresh(Interfere(s, key, o.act), key, "", ToS3(next), false, Some(s.objects[key].etag));
    }
  }

  lemma {:induction false} MutateFrame(s: Store, key: string, fn: Meta -> Meta, others: seq<Other>, attempt: nat)
    requires Minted(s) && attempt <= ATTEMPTS
    ensures var t := Mutate(s, key, fn, others, attempt).0; Minted(t) && t.objects - {key} == s.objects - {key}
    decreases ATTEMPTS - attempt
  {
    hide Attempt, Minted;
    if attempt < ATTEMPTS {
      var o := Between(others, attempt);
      AttemptFrame(s, key, fn, o);
      var (t, r) := Attempt(s, key, fn, o);
      if r == None { MutateFrame(t, key, fn, others, attempt + 1); }
    }
  }

  /** The object's metadata as a reader sees it. */
  ghost function MetaAt(s: Store, key: string): Option<Meta> {
    if key in s.objects then Some(FromS3(s.objects[key].meta)) else None
  }

  /** What the last of the first n interferences stored, if they all overtook the call. */
  ghost function LastWritten(first: Stored, others: seq<Other>, n: nat): Stored
    requires n <= |others| && forall i | 0 <= i < n :: Overtakes(others[i])
  {
    if n == 0 then first
    else
      assert Overtakes(others[n - 1]);
      others[n - 1].act.meta
  }

  /** What readers see after another process's act. */
  ghost function AfterAct(m: Meta, act: Act): Option<Meta> {
    match act
    case Nothing => Some(m)
    case Rewrites(meta) => Some(FromS3(meta))
    case Puts(_, meta) => Some(FromS3(meta))
    case Deletes => None
  }

  /** A failed pass left what it read, what another process made of it, or its own rewrite. */
  ghost predicate MayLeave(m: Meta, fn: Meta -> Meta, act: Act, left: Option<Meta>) {
    left == Some(m) || left == AfterAct(m, act) || left == Some(Norm(fn(m)))
  }

  /** The pass reads the metadata, and if it has to write it nobody comes before it. */
  ghost predicate Lets(o: Other, have: Meta, next: Meta) {
    !o.readFails && (Norm(next) == have || (o.act.Nothing? && o.write.Answered?))
  }

  lemma AttemptSpec(s: Store, key: string, fn: Meta -> Meta, o: Other)
    requires Minted(s) && key in s.objects
    ensures var (t, r) := Attempt(s, key, fn, o);
            var have := FromS3(s.objects[key].meta);
            && Minted(t)
            && (r == None ==> Overtakes(o) && key in t.objects && t.objects[key].meta == o.act.meta)
            && (r.Some? && r.value.Ok? ==> r.value.meta == fn(have) && MetaAt(t, key) == Some(Norm(fn(have)))
                                           && Lets(o, have, fn(have)))
            && (r == Some(Lost) ==> o.act.Deletes? && key !in t.objects)
            && (r == Some(Failed) ==> (o.readFails || !o.write.Answered?) && MayLeave(have, fn, o.act, MetaAt(t, key)))
            && r != Some(Missing) && r != Some(KeptChanging)
  {
    hide FromS3, ToS3, EqualMeta, WellFormed, Interfere, RewriteStep;
    AttemptFrame(s, key, fn, o);
    var have := FromS3(s.objects[key].meta);
    FromS3WellFormed(s.objects[key].meta);
    EqualMetaDecides(have, fn(have));
    if !o.readFails && !EqualMeta(have, fn(have)) {
      ActSpec(s, key, o.act);
      RewriteSpec(Interfere(s, key, o.act), key, s.objects[key].etag, fn(have));
    }
  }

  lemma ActSpec(s: Store, key: string, act: Act)
    requires Minted(s) && key in s.objects
    ensures var t := Interfere(s, key, act);
            && MetaAt(t, key) == AfterAct(FromS3(s.objects[key].meta), act)
            && (key in t.objects && t.objects[key].etag != s.objects[key].etag ==>
                  (act.Rewrites? || act.Puts?) && t.objects[key].meta == act.meta)
            && (key !in t.objects <==> act.Deletes?)
            && (act.Rewrites? || act.Puts? ==> t.objects[key].etag != s.objects[key].etag)
  {
    hide FromS3;
  }

  lemma RewriteSpec(s: Store, key: string, etag: nat, next: Meta)
    ensures var (t, st) := RewriteStep(s, key, Some(etag), ToS3(next));
            if key !in s.objects then t == s && st == NotFound
            else if s.objects[key].etag != etag then t == s && st == Changed
            else
              && st == Fine && key in t.objects && t.objects[key].meta == ToS3(next)
              && MetaAt(t, key) == Some(Norm(next))
  {
    hide FromS3, ToS3;
  }

  /** The call was overtaken by n rewrites and then ended as r says, leaving store t. */
  ghost predicate Explains(first: Stored, fn: Meta -> Meta, others: seq<Other>, n: nat, key: string, t: Store,
                           r: Result)
  {
    && n <= 16 && n <= |others|
    && (forall i | 0 <= i < n :: Overtakes(others[i]))
    && var last := FromS3(LastWritten(first, others, n));
       match r
       case Ok(m) =>
         && n < 16 && m == fn(last) && MetaAt(t, key) == Some(Norm(m))
         && (n < |others| ==> Lets(others[n], last, m))
       case KeptChanging => n == 16
       case Lost => n < 16 && n < |others| && others[n].act.Deletes?
       case Failed =>
         && n < 16 && n < |others| && (others[n].readFails || !others[n].write.Answered?)
         && MayLeave(last, fn, others[n].act, MetaAt(t, key))
       case Missing => false
  }

  /** No update is lost and none is repeated: a call that answers Ok applied its function once, to the metadata the
      last interfering writer left, and that is what readers then see; nobody came between its last read and its
      write; "kept changing" means that all sixteen attempts were overtaken by another write; a failed call applied its
      function at most once, to the same. */
  lemma MutateLosesNothing(s: Store, key: string, fn: Meta -> Meta, others: seq<Other>)
    requires Minted(s) && key in s.objects
    ensures var (t, r) := Mutate(s, key, fn, others);
            exists n :: Explains(s.objects[key].meta, fn, others, n, key, t, r)
  {
    hide FromS3, Attempt, ToS3, Explains;
    var n := MutateFrom(s, key, fn, others, 0, s.objects[key].meta);
  }

  lemma {:induction false} MutateFrom(s: Store, key: string, fn: Meta -> Meta, others: seq<Other>, attempt: nat,
                                      first: Stored)
    returns (n: nat)
    requires Minted(s) && key in s.objects && attempt <= ATTEMPTS
    requires attempt <= |others| && forall i | 0 <= i < attempt :: Overtakes(others[i])
    requires s.objects[key].meta == LastWritten(first, others, attempt)
    ensures Explains(first, fn, others, n, key, Mutate(s, key, fn, others, attempt).0,
            Mutate(s, key, fn, others, attempt).1)
    decreases ATTEMPTS - attempt
  {
    hide FromS3, Attempt, ToS3;
    n := attempt;
    if attempt < ATTEMPTS {
      AttemptSpec(s, key, fn, Between(others, attempt));
      var (t, r) := Attempt(s, key, fn, Between(others, attempt));
      if r == None {
        assert Mutate(s, key, fn, others, attempt) == Mutate(t, key, fn, others, attempt + 1);
        n := MutateFrom(t, key, fn, others, attempt + 1, first);
      } else {
        assert Mutate(s, key, fn, others, attempt) == (t, r.value);
      }
    }
  }

  /** The vault over a store object. */
  class Vault {
    const s: MemStore

    constructor (store: MemStore)
      ensures s == store
    {
      s := store;
    }

    method Find(key: string) returns (o: Option<Object>)
      ensures o == if key in s.objects then Some(s.objects[key]) else None
    {
      o := s.Head(key);
    }

    /** The other processes' turn. */
    method Others(key: string, act: Act)
      modifies s
      ensures s.State() == Interfere(old(s.State()), key, act)
    {
      match act {
        case Nothing =>
        case Rewrites(meta) =>
          var _ := s.CopyReplaceIfMatch(key, None, meta);
        case Puts(data, meta) =>
          var _ := s.Put(key, data, meta, false);
        case Deletes =>
          s.Delete(key);
      }
    }

    method Meanwhile(acts: Interference)
      modifies s
      ensures acts == [] ==> s.State() == old(s.State())
      ensures Minted(old(s.State())) ==> Minted(s.State())
    {
      hide Interfere, Minted;
      for i := 0 to |acts|
        invariant acts == [] ==> s.State() == old(s.State())
        invariant Minted(old(s.State())) ==> Minted(s.State())
      {
        if Minted(s.State()) { InterfereKeepsMinted(s.State(), acts[i].0, acts[i].1); }
        Others(acts[i].0, acts[i].1);
      }
    }

    method MutateMeta(key: string, fn: Meta -> Meta, others: seq<Other>) returns (r: Result)
      modifies s
      ensures (s.State(), r) == Mutate(old(s.State()), key, fn, others)
    {
      hide Mutate, Attempt;
      var attempt := 0;
      while attempt < ATTEMPTS
        invariant attempt <= ATTEMPTS
        invariant Mutate(s.State(), key, fn, others, attempt) == Mutate(old(s.State()), key, fn, others)
      {
        OnePass(s.State(), key, fn, others, attempt);
        var ended := OneAttempt(key, fn, Between(others, attempt));
        if ended.Some? {
          return ended.value;
        }
        attempt := attempt + 1;
      }
      NoMorePasses(s.State(), key, fn, others);
      r := KeptChanging;
    }

    /** The body of the loop; None: start over from a fresh read. */
    method OneAttempt(key: string, fn: Meta -> Meta, o: Other) returns (ended: Option<Result>)
      modifies s
      ensures (s.State(), ended) == Attempt(old(s.State()), key, fn, o)
    {
      hide FromS3, ToS3, EqualMeta, Interfere, RewriteStep;
      if o.readFails {
        return Some(Failed);
      }
      var found := Find(key);
      if found == None {
        return Some(Missing);
      }
      var have := FromS3(found.value.meta);
      var next := fn(have);
      if EqualMeta(have, next) {
        return Some(Ok(next));
      }
      var out := RenderS3(next);
      Others(key, o.act);
      if o.write.Refused? {
        return Some(Failed);
      }
      var st := s.CopyReplaceIfMatch(key, Some(found.value.etag), out);
      if o.write.Unanswered? {
        return Some(Failed);
      }
      if st == Changed {
        return None;
      }
      ended := Some(if st == Fine then Ok(next) else Lost);
    }

    method UpdateMeta(key: string, want: Meta, others: seq<Other>) returns (r: Result)
      modifies s
      ensures (s.State(), r) == Mutate(old(s.State()), key, have => Merge(have, want), others)
    {
      r := MutateMeta(key, have => Merge(have, want), others);
    }

    /** Storing verified bytes: a free key takes them, a corrupt object is replaced, any other gets the claim merged. */
    method PutNew(key: string, data: Bytes, m: Meta, now: string, acts: PutActs) returns (stored: bool, r: Result)
      modifies s
      ensures (s.State(), stored, r) == PutNewStep(old(s.State()), key, data, Defaults(m, now), acts)
    {
      hide FromS3, ToS3, Merge, Mutate, Interfere, Defaults;
      var want := Defaults(m, now);
      var out := RenderS3(want);
      if acts.create.Refused? {
        return false, Failed;
      }
      var st := s.Put(key, data, out, true);
      if acts.create.Unanswered? {
        return false, Failed;
      }
      if st == Exists {
        Others(key, acts.meanwhile);
        if acts.findFails {
          return false, Failed;
        }
        var o := Find(key);
        if o.Some? && FromS3(o.value.meta).corrupt {
          stored, r := Replace(key, data, FromS3(o.value.meta), want, acts);
          return;
        }
        r := UpdateMeta(key, want, acts.others);
        return false, r;
      }
      stored, r := true, Ok(want);
    }

    /** The bytes of a corrupt object are replaced, whatever became of it since. */
    method Replace(key: string, data: Bytes, had: Meta, want: Meta, acts: PutActs) returns (stored: bool, r: Result)
      modifies s
      ensures (s.State(), stored, r) == ReplaceStep(old(s.State()), key, data, had, want, acts)
    {
      hide ToS3, Merge, Interfere, Cleared;
      var merged, _ := RunMerge(Cleared(had), want);
      var out := RenderS3(merged);
      Others(key, acts.late);
      if acts.replace.Refused? {
        return false, Failed;
      }
      var _ := s.Put(key, data, out, false);
      if acts.replace.Unanswered? {
        return false, Failed;
      }
      stored, r := true, Ok(merged);
    }
  }

  lemma OnePass(s: Store, key: string, fn: Meta -> Meta, others: seq<Other>, attempt: nat)
    requires attempt < ATTEMPTS
    ensures var (t, r) := Attempt(s, key, fn, Between(others, attempt));
            Mutate(s, key, fn, others, attempt) == if r.Some? then (t, r.value)
                else Mutate(t, key, fn, others, attempt + 1)
  {
    hide Attempt;
  }

  lemma NoMorePasses(s: Store, key: string, fn: Meta -> Meta, others: seq<Other>)
    ensures Mutate(s, key, fn, others, ATTEMPTS) == (s, KeptChanging)
  {
  }

  function Defaults(m: Meta, now: string): Meta {
    m.(storedAt := First(m.storedAt, now), kind := if m.kind == "" then COACH else m.kind)
  }

  /** What a corrupt object hands on to the bytes that replace it. */
  function Cleared(m: Meta): Meta {
    m.(corrupt := false, bad := false, badVer := "", container := "", storedAt := "", sha256 := "")
  }

  /** What happens around the store calls of PutNew: the create, what others do before the look at the object there,
      the look, what others do before a corrupt object is replaced, the replacing put, and the merge's passes. */
  datatype PutActs = PutActs(create: Fault, meanwhile: Act, findFails: bool, late: Act, replace: Fault,
      others: seq<Other>)

  const ALONE := PutActs(Answered, Nothing, false, Nothing, Answered, [])

  function PutNewStep(s: Store, key: string, data: Bytes, want: Meta, acts: PutActs): (Store, bool, Result) {
    if acts.create.Refused? then (s, false, Failed)
    else
      var (t, st) := PutStep(s, key, data, ToS3(want), true);
      if acts.create.Unanswered? then (t, false, Failed)
      else if st != Exists then (t, true, Ok(want))
      else TakenStep(Interfere(t, key, acts.meanwhile), key, data, want, acts)
  }

  /** The key was taken. */
  function TakenStep(s: Store, key: string, data: Bytes, want: Meta, acts: PutActs): (Store, bool, Result) {
    if acts.findFails then (s, false, Failed)
    else if key in s.objects && FromS3(s.objects[key].meta).corrupt then
      ReplaceStep(s, key, data, FromS3(s.objects[key].meta), want, acts)
    else
      var (t, r) := Mutate(s, key, have => Merge(have, want), acts.others);
      (t, false, r)
  }

  function ReplaceStep(s: Store, key: string, data: Bytes, had: Meta, want: Meta, acts: PutActs): (Store, bool, Result)
  {
    var merged := Merge(Cleared(had), want);
    var t := Interfere(s, key, acts.late);
    if acts.replace.Refused? then (t, false, Failed)
    else (PutStep(t, key, data, ToS3(merged), false).0, acts.replace.Answered?,
        if acts.replace.Answered? then Ok(merged) else Failed)
  }

  /** A call that says it stored has its bytes and its metadata under the key; any other answer but a failure means
      that some object was there. */
  lemma PutNewAnswers(s: Store, key: string, data: Bytes, want: Meta, acts: PutActs)
    ensures var (t, stored, r) := PutNewStep(s, key, data, want, acts);
            && (stored ==>
                  r.Ok? && key in t.objects && t.objects[key].data == data && MetaAt(t, key) == Some(Norm(r.meta)))
            && (!stored && r != Failed ==> key in s.objects)
            && (key !in s.objects && acts.create.Answered? ==> stored && r == Ok(want))
  {
    hide FromS3, ToS3, Merge, Mutate, Interfere;
  }

  /** A store call of its own that fails ends the storing: nothing is said to be stored, and what the call had carried
      out until then stays. Without such a failure the call does not fail, unless the merge of the claim does. */
  lemma PutNewReportsFailures(s: Store, key: string, data: Bytes, want: Meta, acts: PutActs)
    requires Minted(s)
    ensures var (t, stored, r) := PutNewStep(s, key, data, want, acts);
            var met := Interfere(s, key, acts.meanwhile);
            var late := Interfere(met, key, acts.late);
            var corrupt := key in met.objects && FromS3(met.objects[key].meta).corrupt;
            && (acts.create.Refused? ==> t == s && !stored && r == Failed)
            && (acts.create.Unanswered? ==>
                  && !stored && r == Failed
                  && if key in s.objects then t == s
                     else key in t.objects && t.objects[key].data == data && MetaAt(t, key) == Some(Norm(want)))
            && (acts.create.Answered? && key in s.objects ==>
                  && (acts.findFails ==> t == met && !stored && r == Failed)
                  && (!acts.findFails && corrupt ==>
                        && (stored <==> acts.replace.Answered?) && (stored <==> r.Ok?) && (stored <==> r != Failed)
                        && if acts.replace.Refused? then t == late
                           else key in t.objects && t.objects[key].data == data))
  {
    hide FromS3, ToS3, Merge, Mutate, Interfere;
  }

  /** Without interference the first attempt settles the call. */
  lemma MutateAlone(s: Store, key: string, fn: Meta -> Meta)
    requires Minted(s) && key in s.objects
    ensures var (t, r) := Mutate(s, key, fn, []);
            && r == Ok(fn(FromS3(s.objects[key].meta)))
            && MetaAt(t, key) == Some(Norm(r.meta))
            && t.objects[key].data == s.objects[key].data
            && t.objects - {key} == s.objects - {key}
  {
    hide FromS3, ToS3, EqualMeta;
    AttemptSpec(s, key, fn, QUIET);
    var (t, r) := Attempt(s, key, fn, QUIET);
    assert t.objects - {key} == s.objects - {key};
  }

  /** Storing never loses a claim: whatever was there, the ids and protected kinds of both survive, the class does
      not fall, the bytes are the new ones exactly when the answer says stored, a replaced corrupt object is clean again
      and has the container, time and checksum of the new bytes, and every other text there was stays. */
  lemma PutNewKeepsClaims(s: Store, key: string, data: Bytes, want: Meta)
    requires Minted(s) && key in s.objects && WellFormed(want)
    ensures var (t, stored, r) := PutNewStep(s, key, data, want, ALONE);
            var had := FromS3(s.objects[key].meta);
            && key in t.objects
            && var has := FromS3(t.objects[key].meta);
            && Wanted(has) == Wanted(had) + Wanted(want)
            && Claims(has) == Claims(had) + Claims(want)
            && Class(has.kind) >= Class(had.kind) && Class(has.kind) >= Class(want.kind)
            && stored == had.corrupt
            && t.objects[key].data == (if stored then data else s.objects[key].data)
            && (stored ==> has.bad == want.bad && has.corrupt == want.corrupt)
            && (!stored ==> has.bad == (had.bad || want.bad) && has.corrupt == want.corrupt)
            && has.source == Kept(had.source, want.source) && has.patch == Kept(had.patch, want.patch)
            && has.container == (if stored then want.container else Kept(had.container, want.container))
            && has.storedAt == (if stored then want.storedAt else Kept(had.storedAt, want.storedAt))
            && has.sha256 == (if stored then want.sha256 else Kept(had.sha256, want.sha256))
  {
    hide FromS3, ToS3, WellFormed, Merge, Mutate, Wanted, Claims;
    var had := FromS3(s.objects[key].meta);
    var base := if had.corrupt then Cleared(had) else had;
    FromS3WellFormed(s.objects[key].meta);
    ClearedKeeps(had);
    MergeWellFormed(base, want);
    MergeJoins(base, want);
    MergeFlags(base, want);
    MergeTexts(base, want);
    PatchIsClean(want);
    RoundTrip(Merge(base, want));
    if !had.corrupt {
      MutateAlone(s, key, have => Merge(have, want));
    }
  }

  lemma ClearedKeeps(m: Meta)
    requires WellFormed(m)
    ensures var c := Cleared(m);
            WellFormed(c) && Wanted(c) == Wanted(m) && Claims(c) == Claims(m) && c.kind == m.kind && !c.bad
                && !c.corrupt
  {
    CleanVerStable("");
  }

  /** The text there, or the new one when there is none. */
  ghost function Kept(had: string, wanted: string): string {
    if had != "" then had else wanted
  }

  lemma MergeTexts(a: Meta, b: Meta)
    ensures var m := Merge(a, b);
            && m.source == Kept(a.source, b.source) && m.patch == Kept(a.patch, CleanPatch(b.patch))
            && m.container == Kept(a.container, b.container) && m.storedAt == Kept(a.storedAt, b.storedAt)
            && m.sha256 == Kept(a.sha256, b.sha256)
  {
  }

  lemma PatchIsClean(m: Meta)
    requires WellFormed(m)
    ensures CleanPatch(m.patch) == m.patch
  {
  }

  /** On a free key the object is stored with the bytes as they are, as a coach game when no kind is given, and with the
      time when none is given. */
  lemma PutNewFillsIn(s: Store, key: string, data: Bytes, m: Meta, now: string)
    requires key !in s.objects && (IsKind(m.kind) || m.kind == "")
    ensures var (t, stored, r) := PutNewStep(s, key, data, Defaults(m, now), ALONE);
            && stored && key in t.objects && t.objects[key].data == data
            && var has := FromS3(t.objects[key].meta);
            && has.kind == (if m.kind == "" then "coach" else m.kind)
            && has.storedAt == (if m.storedAt == "" then now else m.storedAt)
            && has.source == m.source && has.container == m.container && has.sha256 == m.sha256
            && has.corrupt == m.corrupt
  {
    hide FromS3, ToS3, Merge, Mutate, Interfere, ReadKind;
    var want := Defaults(m, now);
    NormFields(want);
    ReadKindSpec(want.kind);
  }

  lemma MergeFlags(a: Meta, b: Meta)
    ensures Merge(a, b).bad == (a.bad || b.bad) && Merge(a, b).corrupt == (a.corrupt || b.corrupt)
  {
  }
}
