/** vaultctl purge-student (cmd/vaultctl/main.go): the games of a student who left are deleted, or handed back to
    whoever else they are kept for. */
module PurgeStudent {
  import opened Wrappers
  import opened Text
  import opened Kinds
  import opened Metadata
  import opened MergeAlgebra
  import opened ObjectStore
  import V = Vault

  /** The object is stored as a student's game and lists the account. */
  predicate Concerned(account: string, m: Meta) {
    m.kind == STUDENT && account in m.accounts
  }

  /** Nobody else wants it. */
  predicate Unwanted(account: string, m: Meta) {
    Without(m.accounts, account) == [] && m.also == []
  }

  /** What an applied purge leaves of one object. */
  ghost predicate PurgedTo(account: string, before: Object, key: string, after: map<string, Object>) {
    var m := FromS3(before.meta);
    if !Concerned(account, m) then key in after && after[key] == before
    else if Unwanted(account, m) then key !in after
    else key in after && after[key].data == before.data && FromS3(after[key].meta) == Purge(account, m)
  }

  lemma {:induction false} WithoutMembers(xs: seq<string>, k: string)
    ensures forall x :: x in Without(xs, k) <==> x in xs && x != k
    ensures k !in xs ==> Without(xs, k) == xs
  {
    if xs != [] {
      WithoutMembers(xs[1..], k);
      assert xs == [xs[0]] + xs[1..];
    }
  }

  lemma AnotherOne(xs: seq<string>, k: string)
    requires Ascending(xs) && |xs| > 1
    ensures exists x :: x in xs && x != k
  {
    LessTotal(xs[0], xs[1]);
    var x := if xs[0] == k then xs[1] else xs[0];
    assert x in xs && x != k;
  }

  lemma OnlyOne(xs: seq<string>, k: string)
    requires Ascending(xs) && k in xs
    ensures Without(xs, k) == [] <==> xs == [k]
  {
    WithoutMembers(xs, k);
    if |xs| > 1 {
      AnotherOne(xs, k);
      var x :| x in xs && x != k;
      assert x in Without(xs, k);
    }
  }

  lemma PurgeWellFormed(account: string, m: Meta)
    requires WellFormed(m)
    ensures WellFormed(Purge(account, m))
  {
    WithoutSpec(m.accounts, account);
    WithoutMembers(m.accounts, account);
    WithoutSpec(m.also, Best(m.also));
    WithoutMembers(m.also, Best(m.also));
    BestIsHighest(m.also);
  }

  lemma PurgeClaims(account: string, m: Meta)
    requires WellFormed(m) && Concerned(account, m) && !Unwanted(account, m) && Without(m.accounts, account) == []
    ensures Claims(Purge(account, m)) == ProtectedSet(m.also)
  {
    hide FromS3, ToS3;
    var best := Best(m.also);
    BestIsHighest(m.also);
    OneAndRest(m.also, best);
    var claims := Without(m.also, best) + [best];
    forall k | k in claims ensures Protected(k) { assert k in Elems(claims) && k in Elems(m.also); }
    AllProtected(claims);
    AllProtected(m.also);
  }

  lemma PurgeWanted(account: string, m: Meta)
    requires WellFormed(m)
    ensures Wanted(Purge(account, m)) == Wanted(m) - {account}
  {
    PurgeWellFormed(account, m);
    hide FromS3, ToS3, WellFormed;
    WithoutMembers(m.accounts, account);
    WellFormedSets(m);
    WellFormedSets(Purge(account, m));
    assert Elems(Purge(account, m).accounts) == Elems(m.accounts) - {account};
  }

  /** A purge takes exactly one id: the other students' ids stay, and so does every protected claim but the student's
      when nobody is left; the class never falls below that of a remembered claim, and nothing else changes. */
  lemma PurgeTakesOnlyTheAccount(account: string, m: Meta)
    requires WellFormed(m) && Concerned(account, m) && !Unwanted(account, m)
    ensures var r := Purge(account, m);
            && Wanted(r) == Wanted(m) - {account}
            && Claims(r) == (if r.accounts == [] then ProtectedSet(m.also) else Claims(m))
            && (r.accounts != [] ==> r.kind == STUDENT)
            && (forall k | k in m.also :: Class(k) <= Class(r.kind))
            && r == m.(kind := r.kind, accounts := r.accounts, also := r.also)
  {
    hide FromS3, ToS3, WellFormed, Wanted;
    var r := Purge(account, m);
    PurgeWanted(account, m);
    BestIsHighest(m.also);
    if r.accounts == [] {
      PurgeClaims(account, m);
    }
  }

  /** What the second look lets a delete remove. */
  ghost predicate OnlyHis(account: string, m: Meta) {
    m.kind == STUDENT && m.also == [] && m.accounts == [account]
  }

  /** One object of the listing; other processes may have changed it since, and may go on doing so while it is
      detached. A delete looks again first, so it only ever removes an object that is, at that moment, a student's game
      for this account and nobody else. ok: the run goes on; removed: what was deleted. */
  method One(v: V.Vault, key: string, listed: Meta, account: string, apply: bool, others: seq<V.Other>)
    returns (ok: bool, ghost removed: Option<Meta>)
    requires Minted(v.s.State()) && WellFormed(listed)
    modifies v.s
    ensures Minted(v.s.State()) && v.s.objects - {key} == old(v.s.objects) - {key}
    ensures !apply || !Concerned(account, listed) ==> ok && removed == None && v.s.State() == old(v.s.State())
    ensures removed.Some? ==> key in old(v.s.objects) && key !in v.s.objects && OnlyHis(account, removed.value)
                              && removed.value == FromS3(old(v.s.objects)[key].meta)
    ensures others == [] && key in old(v.s.objects) && removed == None ==> key in v.s.objects
    ensures apply && others == [] && key in old(v.s.objects) && listed == FromS3(old(v.s.objects)[key].meta) ==>
              ok && PurgedTo(account, old(v.s.objects)[key], key, v.s.objects)
  {
    hide FromS3, ToS3, Purge, WellFormed, EqualMeta, V.Mutate, PurgedTo;
    ghost var before := v.s.objects;
    ok, removed := true, None;
    if !Concerned(account, listed) {
      if key in before && listed == FromS3(before[key].meta) { PassedOver(account, before[key], key, v.s.objects); }
      return;
    }
    if !apply {
      return;
    }
    if Unwanted(account, listed) {
      var cur := v.Find(key);
      if cur == None {
        return;
      }
      var m := FromS3(cur.value.meta);
      if m.kind != STUDENT || |m.also| > 0 || |m.accounts| != 1 || m.accounts[0] != account {
        if listed == m { Unchanged(account, cur.value.meta); }
        return;
      }
      DeleteKeepsMinted(v.s.State(), key);
      v.s.Delete(key);
      removed := Some(m);
      if listed == m {
        Dropped(account, before[key], key, v.s.objects);
      }
      return;
    }
    V.MutateFrame(v.s.State(), key, x => Purge(account, x), others, 0);
    if key in before && others == [] {
      V.MutateAlone(v.s.State(), key, x => Purge(account, x));
    }
    var r := v.MutateMeta(key, x => Purge(account, x), others);
    ok := r.Ok?;
    if others == [] && key in before
       && Concerned(account, FromS3(before[key].meta)) && !Unwanted(account, FromS3(before[key].meta))
    {
      Detached(account, before[key], key, v.s.objects);
    }
  }

  /** A listing that still holds passes the second look. */
  lemma Unchanged(account: string, stored: Stored)
    requires Concerned(account, FromS3(stored)) && Unwanted(account, FromS3(stored))
    ensures FromS3(stored).accounts == [account] && FromS3(stored).also == [] && FromS3(stored).kind == STUDENT
  {
    hide FromS3;
    FromS3WellFormed(stored);
    OnlyOne(FromS3(stored).accounts, account);
  }

  /** Left alone: the objects whose turn is still to come are as they were, the others as their metadata says. */
  ghost predicate Purged(account: string, before: map<string, Object>, keys: seq<string>, i: nat, apply: bool,
                         now: map<string, Object>)
    requires forall k | k in keys :: k in before
  {
    && (forall k | k in now :: k in before)
    && (forall j | i <= j < |keys| :: keys[j] in now && now[keys[j]] == before[keys[j]])
    && (apply ==> forall j | 0 <= j < i && j < |keys| :: PurgedTo(account, before[keys[j]], keys[j], now))
  }

  lemma PurgedStep(account: string, before: map<string, Object>, keys: seq<string>, i: nat, apply: bool,
                   was: map<string, Object>, now: map<string, Object>)
    requires (forall k | k in keys :: k in before) && forall a, b | 0 <= a < b < |keys| :: keys[a] != keys[b]
    requires i < |keys| && Purged(account, before, keys, i, apply, was) && was - {keys[i]} == now - {keys[i]}
    requires if apply then PurgedTo(account, before[keys[i]], keys[i], now) else now == was
    ensures Purged(account, before, keys, i + 1, apply, now)
  {
    hide PurgedTo;
    var key := keys[i];
    assert key in keys;
    forall k | k != key ensures (k in now <==> k in was) && (k in was ==> now[k] == was[k]) {
      OneKeyChanged(was, now, key, k);
    }
    if apply {
      forall j | 0 <= j < i ensures PurgedTo(account, before[keys[j]], keys[j], now) {
        SamePurged(account, before[keys[j]], keys[j], was, now);
      }
    }
  }

  lemma PurgedAll(account: string, before: map<string, Object>, keys: seq<string>, now: map<string, Object>)
    requires Elems(keys) == before.Keys && (forall k | k in keys :: k in before)
             && Purged(account, before, keys, |keys|, true, now)
    ensures now.Keys <= before.Keys && forall k | k in before :: PurgedTo(account, before[k], k, now)
    ensures forall k | k in now :: !Concerned(account, FromS3(now[k].meta))
  {
    hide PurgedTo, FromS3, Concerned;
    forall k | k in before ensures PurgedTo(account, before[k], k, now) {
      assert k in Elems(keys);
      var j :| 0 <= j < |keys| && keys[j] == k;
    }
    forall k | k in now ensures !Concerned(account, FromS3(now[k].meta)) {
      NoLongerConcerned(account, before[k], k, now);
    }
  }

  /** The run over a listing of all objects. Whatever others do before an object's turn and while it is detached, every
      delete removes a student's game that is kept for this account alone. Left alone, a dry run changes nothing, and an
      applied one changes each object as its metadata says and leaves no student's game that lists the account. */
  method Run(v: V.Vault, keys: seq<string>, account: string, apply: bool, others: seq<V.Interference>,
             during: seq<seq<V.Other>>)
    returns (ghost removed: seq<Meta>)
    requires Minted(v.s.State())
    requires forall i, j | 0 <= i < j < |keys| :: keys[i] != keys[j]
    requires Elems(keys) == v.s.objects.Keys
    modifies v.s
    ensures forall m | m in removed :: OnlyHis(account, m)
    ensures !apply ==> removed == []
    ensures !apply && others == [] ==> v.s.State() == old(v.s.State())
    ensures apply && others == [] && during == [] ==>
              && v.s.objects.Keys <= old(v.s.objects.Keys)
              && (forall k | k in old(v.s.objects) :: PurgedTo(account, old(v.s.objects)[k], k, v.s.objects))
              && (forall k | k in v.s.objects :: !Concerned(account, FromS3(v.s.objects[k].meta)))
  {
    hide FromS3, ToS3, Purge, WellFormed, EqualMeta, V.Mutate, PurgedTo, Concerned, OnlyHis, Minted, Purged;
    ghost var before := v.s.objects;
    ghost var quiet := others == [] && during == [];
    var listing := v.s.objects;
    removed := [];
    forall k | k in keys ensures k in before { assert k in Elems(keys); }
    NothingPurged(account, before, keys, apply);
    for i := 0 to |keys|
      invariant Minted(v.s.State())
      invariant forall m | m in removed :: OnlyHis(account, m)
      invariant !apply ==> removed == [] && (others == [] ==> v.s.State() == old(v.s.State()))
      invariant quiet ==> Purged(account, before, keys, i, apply, v.s.objects)
    {
      var key := keys[i];
      v.Meanwhile(V.Turn(others, i));
      ghost var was := v.s.objects;
      FromS3WellFormed(listing[key].meta);
      var acts := if i < |during| then during[i] else [];
      if quiet { StillAsListed(account, before, keys, i, apply, was); }
      var ok, gone := One(v, key, FromS3(listing[key].meta), account, apply, acts);
      if gone.Some? {
        removed := removed + [gone.value];
      }
      if !ok {
        return;
      }
      if quiet { PurgedStep(account, before, keys, i, apply, was, v.s.objects); }
    }
    if apply && quiet { PurgedAll(account, before, keys, v.s.objects); }
  }

  lemma NothingPurged(account: string, before: map<string, Object>, keys: seq<string>, apply: bool)
    requires forall k | k in keys :: k in before
    ensures Purged(account, before, keys, 0, apply, before)
  {
  }

  lemma StillAsListed(account: string, before: map<string, Object>, keys: seq<string>, i: nat, apply: bool,
                      now: map<string, Object>)
    requires (forall k | k in keys :: k in before) && i < |keys| && Purged(account, before, keys, i, apply, now)
    ensures keys[i] in now && now[keys[i]] == before[keys[i]]
  {
  }

  lemma OneKeyChanged(before: map<string, Object>, after: map<string, Object>, key: string, k: string)
    requires before - {key} == after - {key} && k != key
    ensures k in before <==> k in after
    ensures k in after ==> after[k] == before[k]
  {
    assert k in before - {key} <==> k in after - {key};
    if k in after { assert (after - {key})[k] == (before - {key})[k]; }
  }

  lemma SamePurged(account: string, o: Object, key: string, s: map<string, Object>, t: map<string, Object>)
    requires PurgedTo(account, o, key, s)
    requires (key in s <==> key in t) && (key in t ==> t[key] == s[key])
    ensures PurgedTo(account, o, key, t)
  {
    hide FromS3, Purge;
  }

  lemma PassedOver(account: string, o: Object, key: string, s: map<string, Object>)
    requires key in s && s[key] == o && !Concerned(account, FromS3(o.meta))
    ensures PurgedTo(account, o, key, s)
  {
    hide FromS3, Purge;
  }

  lemma Dropped(account: string, o: Object, key: string, s: map<string, Object>)
    requires key !in s && Concerned(account, FromS3(o.meta)) && Unwanted(account, FromS3(o.meta))
    ensures PurgedTo(account, o, key, s)
  {
    hide FromS3, Purge;
  }

  lemma Detached(account: string, o: Object, key: string, s: map<string, Object>)
    requires Concerned(account, FromS3(o.meta)) && !Unwanted(account, FromS3(o.meta))
    requires key in s && s[key].data == o.data && FromS3(s[key].meta) == Norm(Purge(account, FromS3(o.meta)))
    ensures PurgedTo(account, o, key, s)
  {
    hide FromS3, Purge, ToS3, WellFormed;
    FromS3WellFormed(o.meta);
    PurgeWellFormed(account, FromS3(o.meta));
    RoundTrip(Purge(account, FromS3(o.meta)));
  }

  lemma NoLongerConcerned(account: string, o: Object, key: string, s: map<string, Object>)
    requires PurgedTo(account, o, key, s) && key in s
    ensures !Concerned(account, FromS3(s[key].meta))
  {
    hide FromS3;
    WithoutMembers(FromS3(o.meta).accounts, account);
  }

  lemma DeleteKeepsMinted(s: Store, key: string)
    requires Minted(s)
    ensures Minted(DeleteStep(s, key))
    ensures DeleteStep(s, key).objects - {key} == s.objects - {key}
  {
    assert DeleteStep(s, key).objects - {key} == s.objects - {key};
  }
}
