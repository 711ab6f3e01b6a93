/** The retention run (internal/retention/retention.go): replays that a new patch made obsolete, and student games the
    web names, are removed. Other processes may change the store between the listing and a delete. */
module Retention {
  import opened Wrappers
  import opened Text
  import opened Kinds
  import opened Metadata
  import opened MergeAlgebra
  import opened ObjectStore
  import V = Vault

  // ---- numbers as metadata text

  function DigitValue(c: char): nat {
    if IsDigit(c) then (c - '0') as int else 0
  }

  /** strconv.Atoi on a clean patch. */
  function Atoi(s: string): nat {
    if s == "" then 0 else 10 * Atoi(s[..|s| - 1]) + DigitValue(s[|s| - 1])
  }

  function Itoa(n: nat): string {
    if n < 10 then ['0' + n as char] else Itoa(n / 10) + ['0' + (n % 10) as char]
  }

  lemma {:induction false} AtoiItoa(n: nat)
    ensures Atoi(Itoa(n)) == n
  {
    var d := '0' + (n % 10) as char;
    assert DigitValue(d) == n % 10;
    if n >= 10 {
      AtoiItoa(n / 10);
      assert (Itoa(n / 10) + [d])[..|Itoa(n / 10)|] == Itoa(n / 10);
    } else {
      assert Itoa(n)[..0] == "";
    }
  }

  // ---- the patch of a replay

  /** A patch and the day it came out; the list is sorted by id. */
  datatype Patch = Patch(id: nat, date: int)

  /** The newest patch dated at or before the time; 0 when there is none. */
  function PatchAt(all: seq<Patch>, t: int): nat {
    if all == [] then 0
    else if all[|all| - 1].date <= t then all[|all| - 1].id
    else PatchAt(all[..|all| - 1], t)
  }

  /** The entry is dated at or before the time, and every later one after it. */
  ghost predicate Newest(all: seq<Patch>, t: int, id: nat) {
    exists i :: 0 <= i < |all| && all[i].date <= t && all[i].id == id && forall j | i < j < |all| :: all[j].date > t
  }

  lemma {:induction false} PatchAtIsNewest(all: seq<Patch>, t: int)
    ensures if forall i | 0 <= i < |all| :: all[i].date > t then PatchAt(all, t) == 0
            else Newest(all, t, PatchAt(all, t))
  {
    if all != [] {
      var n := |all| - 1;
      if all[n].date <= t {
        assert all[n].id == PatchAt(all, t);
      } else {
        PatchAtIsNewest(all[..n], t);
        if exists i :: 0 <= i < n && all[i].date <= t {
          var i :| 0 <= i < n && all[i].date <= t;
          assert all[..n][i].date <= t;
          var k :| 0 <= k < n && all[..n][k].date <= t && all[..n][k].id == PatchAt(all[..n], t)
                   && forall j | k < j < n :: all[..n][j].date > t;
          assert all[k].date <= t && forall j | k < j < |all| :: all[j].date > t;
        } else {
          assert forall i | 0 <= i < n :: all[..n][i].date > t;
        }
      }
    }
  }

  method FindPatch(all: seq<Patch>, t: int) returns (id: nat)
    ensures id == PatchAt(all, t)
    ensures if forall i | 0 <= i < |all| :: all[i].date > t then id == 0 else Newest(all, t, id)
  {
    id := 0;
    for i := 0 to |all|
      invariant id == PatchAt(all[..i], t)
    {
      assert all[..i + 1][..i] == all[..i];
      if all[i].date <= t {
        id := all[i].id;
      }
    }
    assert all[..|all|] == all;
    PatchAtIsNewest(all, t);
  }

  datatype Listed = Listed(key: string, meta: Meta)

  datatype Config = Config(
    apply: bool, maxPercent: int, pins: Option<set<string>>, patches: seq<Patch>, previous: nat,
    starts: map<string, int>)

  datatype Candidate = Candidate(key: string, kind: string, patch: nat)

  /** A delete, with the metadata seen by the second look right before it. */
  datatype Deletion = Deletion(cand: Candidate, rechecked: Meta)

  /** Coach games, and pro games the web is known not to reference. */
  predicate InPool(cfg: Config, o: Listed) {
    o.meta.kind == COACH || (o.meta.kind == PRO && cfg.pins.Some? && o.key !in cfg.pins.value)
  }

  /** The listed patch, or the one of the start time in the newest done marker; 0 = unknown. */
  function PatchOf(cfg: Config, o: Listed): nat {
    if o.meta.patch != "" then Atoi(o.meta.patch)
    else if o.key in cfg.starts then PatchAt(cfg.patches, cfg.starts[o.key])
    else 0
  }

  /** The run may delete it. */
  predicate Obsolete(cfg: Config, o: Listed) {
    InPool(cfg, o) && 0 < PatchOf(cfg, o) < cfg.previous
  }

  function Pool(cfg: Config, objs: seq<Listed>): seq<Listed> {
    if objs == [] then []
    else Pool(cfg, objs[..|objs| - 1]) + (if InPool(cfg, objs[|objs| - 1]) then [objs[|objs| - 1]] else [])
  }

  /** The obsolete objects of a pool, in its order. */
  function Candidates(cfg: Config, pool: seq<Listed>): seq<Candidate> {
    if pool == [] then []
    else
      var o := pool[|pool| - 1];
      Candidates(cfg, pool[..|pool| - 1])
          + (if Obsolete(cfg, o) then [Candidate(o.key, o.meta.kind, PatchOf(cfg, o))] else [])
  }

  function Max(cfg: Config): nat {
    if cfg.maxPercent <= 0 then 25 else cfg.maxPercent
  }

  /** The second look lets the delete through. */
  predicate StillObsolete(c: Candidate, m: Meta) {
    m.kind == c.kind && (m.patch == "" || m.patch == Itoa(c.patch))
  }

  /** A patch text that prints as it parses. The second look compares texts, so an obsolete object listed with any
      other text is never deleted. */
  predicate Canonical(patch: string) {
    patch == "" || Itoa(Atoi(patch)) == patch
  }

  /** What prints as it parses: no leading zero. */
  lemma {:induction false} CanonicalHasNoLeadingZero(patch: string)
    requires DigitsOnly(patch)
    ensures Canonical(patch) <==> patch == "0" || patch[0] != '0'
    ensures Atoi(patch) == 0 <==> forall i | 0 <= i < |patch| :: patch[i] == '0'
  {
    var n := |patch| - 1;
    var d := patch[n];
    assert '0' + DigitValue(d) as char == d;
    assert patch == patch[..n] + [d];
    if n == 0 {
      assert patch[..0] == "" && Atoi("") == 0;
      assert Atoi(patch) == DigitValue(d);
    } else {
      CanonicalHasNoLeadingZero(patch[..n]);
    }
  }

  ghost predicate Lets(objects: map<string, Object>, c: Candidate) {
    c.key in objects && StillObsolete(c, FromS3(objects[c.key].meta))
  }

  lemma {:induction false} PoolHas(cfg: Config, objs: seq<Listed>, o: Listed)
    requires o in objs && InPool(cfg, o)
    ensures o in Pool(cfg, objs)
  {
    var front := objs[..|objs| - 1];
    assert objs == front + [objs[|objs| - 1]];
    if o in front {
      PoolHas(cfg, front, o);
    }
  }

  lemma {:induction false} PoolDistinct(cfg: Config, objs: seq<Listed>)
    requires DistinctKeys(objs)
    ensures DistinctKeys(Pool(cfg, objs))
  {
    if objs != [] {
      var front := objs[..|objs| - 1];
      PoolDistinct(cfg, front);
      PoolMembers(cfg, front);
      forall j | 0 <= j < |Pool(cfg, front)| ensures Pool(cfg, front)[j].key != objs[|objs| - 1].key {
        assert Pool(cfg, front)[j] in front;
      }
    }
  }

  lemma PoolAgrees(cfg: Config, objs: seq<Listed>, objects: map<string, Object>)
    requires DistinctKeys(objs) && AllAgree(cfg, objs, objects)
    ensures DistinctKeys(Pool(cfg, objs)) && AllAgree(cfg, Pool(cfg, objs), objects)
  {
    hide Agrees;
    PoolDistinct(cfg, objs);
    PoolMembers(cfg, objs);
    var pool := Pool(cfg, objs);
    forall i | 0 <= i < |pool| ensures Agrees(cfg, pool[i], objects) {
      assert pool[i] in objs;
    }
  }

  lemma CanonicalLets(cfg: Config, pool: seq<Listed>, o: Listed, objects: map<string, Object>)
    requires o in pool && AllAgree(cfg, pool, objects)
    ensures o.key in objects
    ensures Lets(objects, Candidate(o.key, o.meta.kind, PatchOf(cfg, o))) <==> Canonical(o.meta.patch)
  {
    hide FromS3, Itoa, Atoi, PatchAt;
    assert Agrees(cfg, o, objects);
    ItoaClean(PatchOf(cfg, o));
  }

  lemma {:induction false} ItoaDigits(n: nat)
    ensures DigitsOnly(Itoa(n))
  {
    if n >= 10 { ItoaDigits(n / 10); }
  }

  lemma ItoaClean(n: nat)
    ensures CleanPatch(Itoa(n)) == Itoa(n) || CleanPatch(Itoa(n)) == ""
  {
    ItoaDigits(n);
    TrimSpec(Itoa(n));
  }

  /** An object listed as "057" is a candidate of patch 57, and the second look keeps it. */
  lemma LeadingZeroStays(key: string, m: Meta)
    requires m.patch == "057"
    ensures Atoi(m.patch) == 57 && !StillObsolete(Candidate(key, m.kind, Atoi(m.patch)), m)
  {
    assert "057"[..2] == "05" && "05"[..1] == "0" && "0"[..0] == "";
    assert Atoi("0") == 0 && Atoi("05") == 5;
    CanonicalHasNoLeadingZero("057");
  }

  /** Which objects the run could remove. */
  method CollectPool(cfg: Config, objs: seq<Listed>) returns (pool: seq<Listed>)
    ensures pool == Pool(cfg, objs)
    ensures forall o :: o in pool <==> o in objs && Removable(cfg, o)
    ensures DistinctKeys(objs) ==> DistinctKeys(pool)
  {
    pool := [];
    for i := 0 to |objs|
      invariant pool == Pool(cfg, objs[..i])
    {
      assert objs[..i + 1][..i] == objs[..i];
      var o := objs[i];
      if o.meta.kind == COACH {
      } else if o.meta.kind == PRO {
        if cfg.pins == None || o.key in cfg.pins.value {
          continue;
        }
      } else {
        continue;
      }
      pool := pool + [o];
    }
    assert objs[..|objs|] == objs;
    PoolMeans(cfg, objs);
  }

  /** A coach game, or a pro game the web is known not to reference. */
  ghost predicate Removable(cfg: Config, o: Listed) {
    o.meta.kind == "coach" || (o.meta.kind == "pro" && cfg.pins.Some? && o.key !in cfg.pins.value)
  }

  /** The listing says which patch the object is of: by its text or, when there is none, by its start time. */
  ghost predicate OfPatch(cfg: Config, o: Listed, patch: nat) {
    if o.meta.patch != "" then patch == Atoi(o.meta.patch)
    else o.key in cfg.starts && Newest(cfg.patches, cfg.starts[o.key], patch)
  }

  /** ... and that is a patch before the previous one. */
  ghost predicate Old(cfg: Config, o: Listed) {
    exists patch: nat :: OfPatch(cfg, o, patch) && 0 < patch < cfg.previous
  }

  lemma NewestIsOne(all: seq<Patch>, t: int, a: nat, b: nat)
    requires Newest(all, t, a) && Newest(all, t, b)
    ensures a == b
  {
    var i :| 0 <= i < |all| && all[i].date <= t && all[i].id == a && forall j | i < j < |all| :: all[j].date > t;
    var k :| 0 <= k < |all| && all[k].date <= t && all[k].id == b && forall j | k < j < |all| :: all[j].date > t;
  }

  lemma PatchOfIsThePatch(cfg: Config, o: Listed, patch: nat)
    requires patch > 0
    ensures PatchOf(cfg, o) == patch <==> OfPatch(cfg, o, patch)
  {
    hide Atoi, PatchAt, Newest;
    if o.meta.patch == "" && o.key in cfg.starts {
      var t := cfg.starts[o.key];
      PatchAtIsNewest(cfg.patches, t);
      if forall i | 0 <= i < |cfg.patches| :: cfg.patches[i].date > t {
        NoneIsNewest(cfg.patches, t, patch);
      } else if Newest(cfg.patches, t, patch) {
        NewestIsOne(cfg.patches, t, patch, PatchAt(cfg.patches, t));
      }
    }
  }

  lemma NoneIsNewest(all: seq<Patch>, t: int, id: nat)
    requires forall i | 0 <= i < |all| :: all[i].date > t
    ensures !Newest(all, t, id)
  {
  }

  /** What the run may delete. */
  lemma ObsoleteMeans(cfg: Config, o: Listed)
    ensures Obsolete(cfg, o) <==> Removable(cfg, o) && Old(cfg, o)
  {
    hide PatchOf, OfPatch;
    var patch := PatchOf(cfg, o);
    if patch > 0 { PatchOfIsThePatch(cfg, o, patch); }
    if Old(cfg, o) {
      var p: nat :| OfPatch(cfg, o, p) && 0 < p < cfg.previous;
      PatchOfIsThePatch(cfg, o, p);
    }
  }

  lemma PoolMeans(cfg: Config, objs: seq<Listed>)
    ensures forall o :: o in Pool(cfg, objs) <==> o in objs && Removable(cfg, o)
    ensures DistinctKeys(objs) ==> DistinctKeys(Pool(cfg, objs))
  {
    PoolMembers(cfg, objs);
    forall o | o in objs && Removable(cfg, o) ensures o in Pool(cfg, objs) { PoolHas(cfg, objs, o); }
    if DistinctKeys(objs) { PoolDistinct(cfg, objs); }
  }

  ghost predicate From(cfg: Config, objs: seq<Listed>, c: Candidate) {
    exists o :: o in objs && Obsolete(cfg, o) && c == Candidate(o.key, o.meta.kind, PatchOf(cfg, o))
  }

  /** The candidate is an object of the listing, with its kind and its patch, that the run may delete. */
  ghost predicate Dated(cfg: Config, objs: seq<Listed>, c: Candidate) {
    exists o :: o in objs && DatedBy(cfg, o, c)
  }

  ghost predicate DatedBy(cfg: Config, o: Listed, c: Candidate) {
    && o.key == c.key && o.meta.kind == c.kind && Removable(cfg, o)
    && OfPatch(cfg, o, c.patch) && 0 < c.patch < cfg.previous
  }

  lemma FromIsDated(cfg: Config, objs: seq<Listed>, c: Candidate)
    requires From(cfg, objs, c)
    ensures Dated(cfg, objs, c)
  {
    hide PatchOf, OfPatch;
    var o :| o in objs && Obsolete(cfg, o) && c == Candidate(o.key, o.meta.kind, PatchOf(cfg, o));
    PatchOfIsThePatch(cfg, o, c.patch);
    ObsoleteMeans(cfg, o);
    assert DatedBy(cfg, o, c);
  }

  lemma {:induction false} PoolMembers(cfg: Config, objs: seq<Listed>)
    ensures forall o | o in Pool(cfg, objs) :: o in objs && InPool(cfg, o)
    ensures |Pool(cfg, objs)| <= |objs|
  {
    if objs != [] {
      PoolMembers(cfg, objs[..|objs| - 1]);
    }
  }

  /** The stored object is the one listed, up to a patch the run filled in. */
  ghost predicate Agrees(cfg: Config, o: Listed, objects: map<string, Object>) {
    && o.key in objects
    && var m := FromS3(objects[o.key].meta);
    && m.kind == o.meta.kind
    && (m.patch == o.meta.patch || (o.meta.patch == "" && m.patch == CleanPatch(Itoa(PatchOf(cfg, o)))))
  }

  ghost predicate AllAgree(cfg: Config, objs: seq<Listed>, objects: map<string, Object>) {
    forall i | 0 <= i < |objs| :: Agrees(cfg, objs[i], objects)
  }

  ghost predicate DistinctKeys(objs: seq<Listed>) {
    forall i, j | 0 <= i < j < |objs| :: objs[i].key != objs[j].key
  }

  /** Filling in a patch kept all else: every text and flag, every id and claim. */
  ghost predicate Kept(was: Meta, now: Meta) {
    && now == was.(patch := now.patch, also := now.also) && (was.patch != "" ==> now.patch == was.patch)
    && Claims(now) == Claims(was)
  }

  /** Same keys, same bytes, and the same metadata but for a patch filled in. */
  ghost predicate SameGames(was: map<string, Object>, now: map<string, Object>) {
    && was.Keys == now.Keys
    && forall k | k in was :: now[k].data == was[k].data && Kept(FromS3(was[k].meta), FromS3(now[k].meta))
  }

  function Fill(kind: string, patch: nat): Meta {
    Meta(kind, Itoa(patch), [], "", "", "", "", false, "", false, [])
  }

  /** Filling in a patch changes nothing else that the run looks at. */
  lemma FillKeeps(s: Store, key: string, patch: nat)
    requires Minted(s) && key in s.objects
    ensures var had := FromS3(s.objects[key].meta);
            var (t, r) := V.Mutate(s, key, have => Merge(have, Fill(had.kind, patch)), []);
            && r.Ok? && Minted(t) && SameGames(s.objects, t.objects) && t.objects - {key} == s.objects - {key}
            && FromS3(t.objects[key].meta).kind == had.kind
            && FromS3(t.objects[key].meta).patch == (if had.patch == "" then CleanPatch(Itoa(patch)) else had.patch)
  {
    hide FromS3, ToS3, EqualMeta, Itoa, V.Mutate;
    var had := FromS3(s.objects[key].meta);
    var fn := have => Merge(have, Fill(had.kind, patch));
    V.MutateAlone(s, key, fn);
    StillMinted(s, key, fn);
    var t := V.Mutate(s, key, fn, []).0;
    FromS3WellFormed(s.objects[key].meta);
    FillNorm(had, patch);
    SameKeys(s.objects, t.objects, key);
  }

  lemma SameKeys(a: map<string, Object>, b: map<string, Object>, key: string)
    requires a - {key} == b - {key} && key in a && key in b && a[key].data == b[key].data
             && Kept(FromS3(a[key].meta), FromS3(b[key].meta))
    ensures SameGames(a, b)
  {
    hide FromS3;
    forall k ensures k in a <==> k in b {
      if k != key { assert k in a - {key} <==> k in b - {key}; }
    }
    forall k | k in a ensures a[k].data == b[k].data && Kept(FromS3(a[k].meta), FromS3(b[k].meta)) {
      if k != key { assert (a - {key})[k] == (b - {key})[k]; }
    }
  }

  lemma FillNorm(had: Meta, patch: nat)
    requires WellFormed(had)
    ensures var n := Norm(Merge(had, Fill(had.kind, patch)));
            && n.kind == had.kind && n.patch == (if had.patch == "" then CleanPatch(Itoa(patch)) else had.patch)
            && Kept(had, n)
  {
    hide FromS3, ToS3, Itoa, CleanAccounts, SortedKinds, CleanVer, CleanPatch, WellFormed;
    var merged := Merge(had, Fill(had.kind, patch));
    NormFields(merged);
    NormFields(had);
    RoundTrip(had);
    CleanPatchStable(Itoa(patch));
    MergeJoins(had, Fill(had.kind, patch));
    KindIsKnown(had);
    NormKeepsSets(merged);
    assert had.accounts + [] == had.accounts;
    assert [] + [had.kind] == [had.kind];
  }

  lemma KindIsKnown(m: Meta)
    requires WellFormed(m)
    ensures IsKind(m.kind) || m.kind == UNKNOWN
  {
  }

  lemma StillMinted(s: Store, key: string, fn: Meta -> Meta)
    requires Minted(s) && key in s.objects
    ensures Minted(V.Mutate(s, key, fn, []).0)
  {
    hide FromS3, ToS3, EqualMeta;
    V.AttemptSpec(s, key, fn, V.QUIET);
    var (t, r) := V.Attempt(s, key, fn, V.QUIET);
  }

  /** Another key's object still agrees after a change of one key. */
  lemma AgreesElsewhere(cfg: Config, o: Listed, a: map<string, Object>, b: map<string, Object>, key: string)
    requires Agrees(cfg, o, a) && a - {key} == b - {key} && o.key != key
    ensures Agrees(cfg, o, b)
  {
    hide FromS3, Itoa, PatchOf;
    assert o.key in a - {key};
    assert o.key in b - {key};
    assert (a - {key})[o.key] == (b - {key})[o.key];
  }

  lemma Filled(cfg: Config, pool: seq<Listed>, i: nat, s: Store)
    requires i < |pool| && Minted(s) && DistinctKeys(pool) && AllAgree(cfg, pool, s.objects)
    requires pool[i].meta.patch == ""
    ensures var filled := Fill(pool[i].meta.kind, PatchOf(cfg, pool[i]));
            var (t, r) := V.Mutate(s, pool[i].key, have => Merge(have, filled), []);
            r.Ok? && Minted(t) && AllAgree(cfg, pool, t.objects) && SameGames(s.objects, t.objects)
  {
    hide FromS3, ToS3, EqualMeta, V.Mutate, Merge, Atoi, Itoa, PatchAt, PatchOf;
    var o := pool[i];
    assert Agrees(cfg, o, s.objects);
    FillKeeps(s, o.key, PatchOf(cfg, o));
    var t := V.Mutate(s, o.key, have => Merge(have, Fill(o.meta.kind, PatchOf(cfg, o))), []).0;
    forall j | 0 <= j < |pool| ensures Agrees(cfg, pool[j], t.objects) {
      assert Agrees(cfg, pool[j], s.objects);
      if j != i { AgreesElsewhere(cfg, pool[j], s.objects, t.objects, o.key); }
    }
  }

  lemma {:induction false} CandidatesFrom(cfg: Config, pool: seq<Listed>)
    ensures forall c | c in Candidates(cfg, pool) :: From(cfg, pool, c)
    ensures |Candidates(cfg, pool)| <= |pool|
    ensures forall o | o in pool && Obsolete(cfg, o) ::
            Candidate(o.key, o.meta.kind, PatchOf(cfg, o)) in Candidates(cfg, pool)
  {
    hide PatchOf, Obsolete;
    if pool != [] {
      var front, o := pool[..|pool| - 1], pool[|pool| - 1];
      CandidatesFrom(cfg, front);
      assert pool == front + [o];
      forall c | c in Candidates(cfg, pool) ensures From(cfg, pool, c) {
        if c in Candidates(cfg, front) {
          var x :| x in front && Obsolete(cfg, x) && c == Candidate(x.key, x.meta.kind, PatchOf(cfg, x));
          assert x in pool;
        } else {
          assert o in pool;
        }
      }
    }
  }

  /** The objects of the pool that are older than the previous patch. A resolved patch is written back when the run
      applies its changes; a failing write ends the run. */
  method CollectCandidates(v: V.Vault, cfg: Config, pool: seq<Listed>, others: seq<V.Interference>)
    returns (ok: bool, cands: seq<Candidate>)
    requires forall o | o in pool :: InPool(cfg, o)
    modifies v.s
    ensures ok ==> cands == Candidates(cfg, pool)
    ensures !cfg.apply && others == [] ==> v.s.State() == old(v.s.State())
    ensures others == [] && Minted(old(v.s.State())) && DistinctKeys(pool) && AllAgree(cfg, pool, old(v.s.objects)) ==>
              ok && Minted(v.s.State()) && AllAgree(cfg, pool, v.s.objects) && SameGames(old(v.s.objects), v.s.objects)
  {
    hide FromS3, ToS3, EqualMeta, V.Mutate, Merge, Atoi, Itoa, PatchAt, Agrees, AllAgree, SameGames;
    cands := [];
    ghost var quiet := others == [] && Minted(v.s.State()) && DistinctKeys(pool) && AllAgree(cfg, pool, v.s.objects);
    SameGamesReflexive(v.s.objects);
    for i := 0 to |pool|
      invariant cands == Candidates(cfg, pool[..i])
      invariant !cfg.apply && others == [] ==> v.s.State() == old(v.s.State())
      invariant quiet ==>
                  && Minted(v.s.State()) && AllAgree(cfg, pool, v.s.objects)
                  && SameGames(old(v.s.objects), v.s.objects)
    {
      var o := pool[i];
      assert o in pool && pool[..i + 1][..i] == pool[..i];
      var patch := 0;
      if o.meta.patch != "" {
        patch := Atoi(o.meta.patch);
      } else if o.key in cfg.starts {
        patch := FindPatch(cfg.patches, cfg.starts[o.key]);
        if patch > 0 && cfg.apply {
          v.Meanwhile(V.Turn(others, i));
          ghost var before := v.s.State();
          if quiet {
            Filled(cfg, pool, i, before);
          }
          var r := v.UpdateMeta(o.key, Fill(o.meta.kind, patch), []);
          if !r.Ok? {
            return false, cands;
          }
          if quiet { SameGamesTransitive(old(v.s.objects), before.objects, v.s.objects); }
        }
      }
      if patch == 0 {
        continue;
      }
      if patch < cfg.previous {
        cands := cands + [Candidate(o.key, o.meta.kind, patch)];
      }
    }
    assert pool[..|pool|] == pool;
    ok := true;
  }

  lemma SameGamesReflexive(a: map<string, Object>)
    ensures SameGames(a, a)
  {
    hide FromS3;
  }

  lemma SameGamesTransitive(a: map<string, Object>, b: map<string, Object>, c: map<string, Object>)
    requires SameGames(a, b) && SameGames(b, c)
    ensures SameGames(a, c)
  {
    hide FromS3, Claims;
  }

  /** The second look at a candidate, and its delete. */
  method Recheck(v: V.Vault, c: Candidate) returns (d: Option<Deletion>)
    modifies v.s
    ensures d.Some? ==> d.value.cand == c && StillObsolete(c, d.value.rechecked)
                        && c.key in old(v.s.objects) && d.value.rechecked == FromS3(old(v.s.objects)[c.key].meta)
    ensures d.Some? <==> Lets(old(v.s.objects), c)
    ensures v.s.objects == old(v.s.objects) - (if d.Some? then {c.key} else {})
  {
    hide FromS3, Itoa;
    var cur := v.Find(c.key);
    if cur == None {
      return None;
    }
    var m := FromS3(cur.value.meta);
    if m.kind != c.kind || (m.patch != "" && m.patch != Itoa(c.patch)) {
      return None;
    }
    v.s.Delete(c.key);
    d := Some(Deletion(c, m));
  }

  ghost function DeletedKeys(deleted: seq<Deletion>): set<string> {
    set d | d in deleted :: d.cand.key
  }

  /** The candidates one after the other, each with its second look. */
  method DeleteAll(v: V.Vault, cands: seq<Candidate>, late: seq<V.Interference>) returns (deleted: seq<Deletion>)
    modifies v.s
    ensures |deleted| <= |cands| && forall d | d in deleted :: d.cand in cands && StillObsolete(d.cand, d.rechecked)
    ensures late == [] ==>
              && v.s.objects == old(v.s.objects) - DeletedKeys(deleted)
              && (forall d | d in deleted :: Lets(old(v.s.objects), d.cand))
              && (forall c | c in cands && Lets(old(v.s.objects), c) :: c.key !in v.s.objects)
  {
    hide StillObsolete, Lets;
    ghost var before := v.s.objects;
    deleted := [];
    for i := 0 to |cands|
      invariant |deleted| <= i
      invariant forall d | d in deleted :: d.cand in cands && StillObsolete(d.cand, d.rechecked)
      invariant late == [] ==> v.s.objects == before - DeletedKeys(deleted) && forall d | d in deleted ::
                Lets(before, d.cand)
      invariant late == [] ==> forall j | 0 <= j < i && Lets(before, cands[j]) :: cands[j].key !in v.s.objects
    {
      v.Meanwhile(V.Turn(late, i));
      if late == [] && cands[i].key in v.s.objects { SameLets(before, v.s.objects, cands[i]); }
      var d := Recheck(v, cands[i]);
      if d.Some? {
        OneMoreDeleted(before, deleted, d.value);
        deleted := deleted + [d.value];
      }
    }
  }

  /** One retention pass over a listing. Whatever other processes do meanwhile, everything it deletes is a coach game
      or an unpinned pro game that the listing dates before the previous patch and that the second look, right before
      the delete, still finds of the same kind and with that patch or none; at most MaxPercent of the pool goes, and a
      dry run changes nothing. Left alone, an applied pass within the limit deletes an obsolete object exactly when its
      listed patch prints as it parses, and leaves the bytes of all others, and their metadata but for a patch filled
      in. */
  method Run(v: V.Vault, cfg: Config, objs: seq<Listed>, others: seq<V.Interference>, late: seq<V.Interference>)
    returns (pool: seq<Listed>, deleted: seq<Deletion>)
    modifies v.s
    ensures pool == Pool(cfg, objs)
    ensures forall o :: o in pool <==> o in objs && Removable(cfg, o)
    ensures forall d | d in deleted :: From(cfg, objs, d.cand) && StillObsolete(d.cand, d.rechecked)
    ensures forall d | d in deleted :: Dated(cfg, objs, d.cand) && d.rechecked.kind == d.cand.kind
                                       && (d.rechecked.patch == "" || d.rechecked.patch == Itoa(d.cand.patch))
    ensures |deleted| * 100 <= |pool| * (if cfg.maxPercent <= 0 then 25 else cfg.maxPercent)
    ensures |Candidates(cfg, pool)| * 100 > |pool| * Max(cfg) ==> deleted == []
    ensures cfg.pins == None ==> forall d | d in deleted :: d.rechecked.kind == COACH
    ensures !cfg.apply ==> deleted == []
    ensures !cfg.apply && others == [] && late == [] ==> v.s.State() == old(v.s.State())
    ensures cfg.apply && others == [] && late == [] && Minted(old(v.s.State())) && DistinctKeys(objs)
            && AllAgree(cfg, objs, old(v.s.objects)) ==>
              && v.s.objects.Keys == old(v.s.objects.Keys) - DeletedKeys(deleted)
              && (forall k | k in v.s.objects :: v.s.objects[k].data == old(v.s.objects)[k].data
                    && Kept(FromS3(old(v.s.objects)[k].meta), FromS3(v.s.objects[k].meta)))
              && (|Candidates(cfg, pool)| * 100 <= |pool| * Max(cfg) ==>
                    forall o | o in objs && Removable(cfg, o) && Old(cfg, o) ::
                        (o.key !in v.s.objects <==> Canonical(o.meta.patch)))
  {
    hide FromS3, ToS3, Atoi, Itoa, PatchAt, PatchOf, Agrees, AllAgree, StillObsolete, Candidates, Lets, Dated, Old;
    hide Kept;
    deleted := [];
    pool := CollectPool(cfg, objs);
    PoolMembers(cfg, objs);
    ghost var quiet := cfg.apply && others == [] && late == [] && Minted(v.s.State()) && DistinctKeys(objs)
        && AllAgree(cfg, objs, v.s.objects);
    if quiet { PoolAgrees(cfg, objs, v.s.objects); }
    var ok, cands := CollectCandidates(v, cfg, pool, others);
    if !ok {
      return;
    }
    CandidatesFrom(cfg, pool);
    if |pool| > 0 && |cands| * 100 > |pool| * Max(cfg) {
      return;
    }
    if !cfg.apply {
      return;
    }
    ghost var filled := v.s.objects;
    deleted := DeleteAll(v, cands, late);
    forall d | d in deleted
      ensures From(cfg, objs, d.cand) && Dated(cfg, objs, d.cand) && (cfg.pins == None ==> d.rechecked.kind == COACH)
    {
      assert From(cfg, pool, d.cand);
      var o :| o in pool && Obsolete(cfg, o) && d.cand == Candidate(o.key, o.meta.kind, PatchOf(cfg, o));
      assert o in objs;
      FromIsDated(cfg, objs, d.cand);
      SameKind(d);
    }
    forall d | d in deleted
      ensures d.rechecked.kind == d.cand.kind && (d.rechecked.patch == "" || d.rechecked.patch == Itoa(d.cand.patch))
    {
      SameKind(d);
    }
    if quiet {
      forall o | o in objs && Removable(cfg, o) && Old(cfg, o)
        ensures o.key !in v.s.objects <==> Canonical(o.meta.patch)
      {
        ObsoleteMeans(cfg, o);
        PoolHas(cfg, objs, o);
        CanonicalLets(cfg, pool, o, filled);
        DeletedIfLet(cfg, objs, o, cands, filled, deleted, v.s.objects);
      }
    }
  }

  /** Of a listed obsolete object exactly its own candidate can delete it. */
  lemma DeletedIfLet(cfg: Config, objs: seq<Listed>, o: Listed, cands: seq<Candidate>,
                     filled: map<string, Object>, deleted: seq<Deletion>, left: map<string, Object>)
    requires DistinctKeys(objs) && o in objs && o.key in filled
    requires Candidate(o.key, o.meta.kind, PatchOf(cfg, o)) in cands
    requires forall d | d in deleted :: From(cfg, objs, d.cand) && Lets(filled, d.cand)
    requires left == filled - DeletedKeys(deleted)
    requires forall c | c in cands && Lets(filled, c) :: c.key !in left
    ensures o.key !in left <==> Lets(filled, Candidate(o.key, o.meta.kind, PatchOf(cfg, o)))
  {
    hide PatchOf, Lets;
    forall d | d in deleted && d.cand.key == o.key
      ensures Lets(filled, Candidate(o.key, o.meta.kind, PatchOf(cfg, o)))
    {
      SameListed(cfg, objs, o, d.cand);
    }
  }

  lemma SameListed(cfg: Config, objs: seq<Listed>, o: Listed, c: Candidate)
    requires DistinctKeys(objs) && o in objs && From(cfg, objs, c) && c.key == o.key
    ensures c == Candidate(o.key, o.meta.kind, PatchOf(cfg, o))
  {
    hide PatchOf;
  }

  lemma SameKind(d: Deletion)
    requires StillObsolete(d.cand, d.rechecked)
    ensures d.rechecked.kind == d.cand.kind && (d.rechecked.patch == "" || d.rechecked.patch == Itoa(d.cand.patch))
  {
    hide Itoa;
  }

  lemma SameLets(a: map<string, Object>, b: map<string, Object>, c: Candidate)
    requires c.key in a && c.key in b && a[c.key] == b[c.key]
    ensures Lets(a, c) == Lets(b, c)
  {
  }

  lemma OneMoreDeleted(filled: map<string, Object>, deleted: seq<Deletion>, d: Deletion)
    ensures DeletedKeys(deleted + [d]) == DeletedKeys(deleted) + {d.cand.key}
    ensures (filled - DeletedKeys(deleted)) - {d.cand.key} == filled - DeletedKeys(deleted + [d])
  {
    assert DeletedKeys(deleted + [d]) == DeletedKeys(deleted) + {d.cand.key};
  }

  /** What "still obsolete" means at the second look: the stored patch, if any, is the one that made it a candidate. */
  lemma RecheckedIsOld(cfg: Config, objs: seq<Listed>, d: Deletion)
    requires From(cfg, objs, d.cand) && StillObsolete(d.cand, d.rechecked)
    ensures 0 < d.cand.patch < cfg.previous
    ensures d.rechecked.kind == COACH || (d.rechecked.kind == PRO && cfg.pins.Some? && d.cand.key !in cfg.pins.value)
    ensures d.rechecked.patch != "" ==> 0 < Atoi(d.rechecked.patch) < cfg.previous
  {
    hide PatchOf;
    AtoiItoa(d.cand.patch);
  }

  // ---- the games parsed ahead

  /** Deletes the named games that are students' games, at most max (2000 by default) a run; anything else the list
      names stays. */
  method PurgePrefetch(v: V.Vault, ids: seq<string>, maxIn: int, apply: bool)
                       returns (candidates: nat, deleted: seq<string>)
    modifies v.s
    ensures var cap := if maxIn <= 0 then 2000 else maxIn;
            |deleted| <= candidates <= cap
            && (apply && candidates < cap ==>
                  forall k | k in ids && k in old(v.s.objects) && FromS3(old(v.s.objects)[k].meta).kind == STUDENT ::
                      k !in v.s.objects)
    ensures forall k | k in deleted ::
            k in ids && k in old(v.s.objects) && FromS3(old(v.s.objects)[k].meta).kind == STUDENT
    ensures v.s.State() == Store(old(v.s.objects) - Elems(deleted), old(v.s.minted))
    ensures !apply ==> deleted == []
  {
    hide FromS3;
    candidates, deleted := 0, [];
    var max := if maxIn <= 0 then 2000 else maxIn;
    ghost var before := v.s.objects;
    for i := 0 to |ids|
      invariant |deleted| <= candidates <= max
      invariant forall k | k in deleted :: k in ids && k in before && FromS3(before[k].meta).kind == STUDENT
      invariant v.s.State() == Store(before - Elems(deleted), old(v.s.minted))
      invariant !apply ==> deleted == []
      invariant apply ==> forall j | 0 <= j < i && ids[j] in before && FromS3(before[ids[j]].meta).kind == STUDENT ::
                ids[j] in deleted
    {
      if candidates >= max {
        break;
      }
      var cur := v.Find(ids[i]);
      if cur == None || FromS3(cur.value.meta).kind != STUDENT {
        continue;
      }
      candidates := candidates + 1;
      if !apply {
        continue;
      }
      v.s.Delete(ids[i]);
      assert Elems(deleted + [ids[i]]) == Elems(deleted) + {ids[i]};
      assert (before - Elems(deleted)) - {ids[i]} == before - Elems(deleted + [ids[i]]);
      deleted := deleted + [ids[i]];
    }
    forall k | apply && candidates < max && k in ids && k in before && FromS3(before[k].meta).kind == STUDENT
      ensures k !in v.s.objects
    {
      assert k in Elems(deleted);
    }
  }
}
