/** The merge of a new claim into stored metadata (internal/vault/meta.go) and its inverse, the purge of a
    student who left (cmd/vaultctl/main.go). */
module MergeAlgebra {
  import opened Text
  import opened Kinds
  import opened Metadata

  function First(a: string, b: string): string {
    if a == "" then b else a
  }

  function MergedKind(have: Meta, want: Meta): string {
    if Class(want.kind) > Class(have.kind) then want.kind else have.kind
  }

  function Without(xs: seq<string>, k: string): seq<string> {
    if xs == [] then []
    else (if xs[0] != k then [xs[0]] else []) + Without(xs[1..], k)
  }

  /** Merge folds want into have. */
  function Merge(have: Meta, want: Meta): Meta {
    var kind := MergedKind(have, want);
    Meta(kind,
         First(have.patch, CleanPatch(want.patch)),
         CleanAccounts(have.accounts + want.accounts),
         First(have.source, want.source),
         First(have.container, want.container),
         First(have.storedAt, want.storedAt),
         First(have.sha256, want.sha256),
         have.bad || want.bad,
         if want.bad && (want.badVer != "" || !have.bad) then want.badVer else have.badVer,
         have.corrupt || want.corrupt,
         Without(SortedKinds(have.also + want.also + [have.kind, want.kind]), kind))
  }

  /** The loop of Merge that drops the winning kind from the remembered ones. */
  method DropKind(all: seq<string>, kind: string) returns (also: seq<string>)
    ensures also == Without(all, kind)
  {
    hide Without;
    also := [];
    assert all[0..] == all;
    for i := 0 to |all|
      invariant also + Without(all[i..], kind) == Without(all, kind)
    {
      WithoutFrom(all, kind, i);
      if all[i] != kind {
        assert also + ([all[i]] + Without(all[i + 1..], kind)) == (also + [all[i]]) + Without(all[i + 1..], kind);
        also := also + [all[i]];
      }
    }
    assert all[|all|..] == [];
    NothingWithout(kind);
    assert also + [] == also;
  }

  lemma WithoutFrom(all: seq<string>, kind: string, i: nat)
    requires i < |all|
    ensures Without(all[i..], kind) == if all[i] != kind then [all[i]] + Without(all[i + 1..], kind)
            else Without(all[i + 1..], kind)
  {
    assert all[i..][0] == all[i] && all[i..][1..] == all[i + 1..];
    assert [] + Without(all[i + 1..], kind) == Without(all[i + 1..], kind);
  }

  lemma NothingWithout(kind: string)
    ensures Without([], kind) == []
  {
  }

  /** Merge as the source runs it; changed says whether the stored metadata must be rewritten. */
  method RunMerge(have: Meta, want: Meta) returns (out: Meta, changed: bool)
    ensures out == Merge(have, want) && changed == !EqualMeta(have, out)
  {
    var kind := have.kind;
    if Class(want.kind) > Class(have.kind) {
      kind := want.kind;
    }
    var all := CollectKinds(have.also + want.also + [have.kind, want.kind]);
    var also := DropKind(all, kind);
    var accounts := CollectAccounts(have.accounts + want.accounts);
    var patch := have.patch;
    if patch == "" {
      patch := CleanPatch(want.patch);
    }
    var badVer := have.badVer;
    if want.bad && (want.badVer != "" || !have.bad) {
      badVer := want.badVer;
    }
    out := Meta(kind, patch, accounts,
                if have.source == "" then want.source else have.source,
                if have.container == "" then want.container else have.container,
                if have.storedAt == "" then want.storedAt else have.storedAt,
                if have.sha256 == "" then want.sha256 else have.sha256,
                have.bad || want.bad, badVer, have.corrupt || want.corrupt, also);
    changed := !EqualMeta(have, out);
  }

  // ---- what a merge keeps

  /** The protected memberships of an object. */
  ghost function Claims(m: Meta): set<string> {
    ProtectedSet(m.also + [m.kind])
  }

  /** The ids an object is kept for. */
  ghost function Wanted(m: Meta): set<string> {
    AccountSet(m.accounts)
  }

  /** The kind is not repeated among the remembered ones: the form every merge leaves. */
  ghost predicate Settled(m: Meta) {
    m.kind !in m.also
  }

  lemma {:induction false} WithoutSpec(xs: seq<string>, k: string)
    requires Ascending(xs)
    ensures Ascending(Without(xs, k)) && Elems(Without(xs, k)) == Elems(xs) - {k}
  {
    if xs != [] {
      WithoutSpec(xs[1..], k);
      var tail := Without(xs[1..], k);
      assert xs == [xs[0]] + xs[1..];
      forall j | 0 <= j < |tail| ensures Less(xs[0], tail[j]) {
        assert tail[j] in Elems(tail);
      }
      assert Elems(xs) == {xs[0]} + Elems(xs[1..]);
      LessTotal(xs[0], xs[0]);
      if xs[0] != k {
        assert Elems([xs[0]] + tail) == {xs[0]} + Elems(tail);
      }
    }
  }

  lemma MergedAlso(a: Meta, b: Meta)
    ensures Ascending(Merge(a, b).also)
    ensures Elems(Merge(a, b).also) == Claims(a) + Claims(b) - {MergedKind(a, b)}
    ensures forall k | k in Merge(a, b).also :: Protected(k)
  {
    var all := a.also + b.also + [a.kind, b.kind];
    SortedKindsSpec(all);
    WithoutSpec(SortedKinds(all), MergedKind(a, b));
    assert ProtectedSet(all) == Claims(a) + Claims(b);
    forall k | k in Merge(a, b).also ensures Protected(k) {
      assert k in Elems(Merge(a, b).also);
    }
  }

  /** A merge is the union of the claims and of the ids; the class is the higher one. */
  lemma MergeJoins(a: Meta, b: Meta)
    ensures Claims(Merge(a, b)) == Claims(a) + Claims(b)
    ensures Wanted(Merge(a, b)) == Wanted(a) + Wanted(b)
    ensures Class(Merge(a, b).kind) == if Class(b.kind) > Class(a.kind) then Class(b.kind) else Class(a.kind)
    ensures Settled(Merge(a, b))
  {
    hide Without, SortedKinds, CleanAccounts;
    MergedClaims(a, b);
    var xs := a.accounts + b.accounts;
    CleanOfClean(xs);
    assert AccountSet(xs) == AccountSet(a.accounts) + AccountSet(b.accounts);
  }

  /** Which kind a merge keeps, by name: a student's game stays one; only it takes over an audited or a camp game; these
      three take over a pro or a ladder game, all five a coach game, and any kind an object without one. */
  lemma MergedKindByName(have: Meta, want: Meta)
    ensures var kind := Merge(have, want).kind;
            if have.kind == "student" then kind == "student"
            else if have.kind in {"audit", "camp"} then kind == if want.kind == "student" then "student" else have.kind
            else if have.kind in {"pro", "ladder"} then
              kind == if want.kind in {"student", "audit", "camp"} then want.kind else have.kind
            else if have.kind == "coach" then
              kind == if want.kind in {"student", "audit", "camp", "pro", "ladder"} then want.kind else have.kind
            else kind == if IsKind(want.kind) then want.kind else have.kind
  {
    hide SortedKinds, CleanAccounts, CleanPatch, Without;
    assert |"student"| == 7 && |"audit"| == 5 && |"camp"| == 4 && |"pro"| == 3 && |"ladder"| == 6 && |"coach"| == 5;
    assert "audit"[0] != "coach"[0];
  }

  /** Writing and reading back keeps ids and claims. */
  lemma NormKeepsSets(m: Meta)
    requires IsKind(m.kind) || m.kind == UNKNOWN
    ensures Wanted(Norm(m)) == Wanted(m) && Claims(Norm(m)) == Claims(m) && Norm(m).kind == m.kind
    ensures WellFormed(Norm(m))
  {
    hide FromS3, ToS3;
    NormFields(m);
    ReadKindSpec(m.kind);
    FromS3WellFormed(ToS3(m));
    CleanOfClean(m.accounts);
    SortedKindsSpec(m.also);
    var n := Norm(m);
    assert ProtectedSet(n.also) == Elems(n.also);
    assert Claims(n) == ProtectedSet(n.also) + ProtectedSet([n.kind]);
    assert Claims(m) == ProtectedSet(m.also) + ProtectedSet([m.kind]);
  }

  lemma MergedClaims(a: Meta, b: Meta)
    ensures Claims(Merge(a, b)) == Claims(a) + Claims(b) && Settled(Merge(a, b))
  {
    hide Without, SortedKinds, CleanAccounts;
    var m := Merge(a, b);
    MergedAlso(a, b);
    assert ProtectedSet(m.also + [m.kind]) == Elems(m.also) + ProtectedSet([m.kind]) by {
      assert ProtectedSet(m.also) == Elems(m.also);
    }
    assert m.kind in Claims(a) + Claims(b) <==> Protected(m.kind) by {
      if Protected(m.kind) { assert m.kind in a.also + [a.kind] || m.kind in b.also + [b.kind]; }
    }
    assert m.kind !in Elems(m.also);
  }

  lemma CleanOfClean(xs: seq<string>)
    ensures AccountSet(CleanAccounts(xs)) == AccountSet(xs)
  {
    CleanAccountsSpec(xs);
    CleanAccountsSpec(CleanAccounts(xs));
  }

  /** Merging a well-formed claim into well-formed metadata keeps it well-formed. */
  lemma MergeWellFormed(a: Meta, b: Meta)
    requires WellFormed(a) && WellFormed(b)
    ensures WellFormed(Merge(a, b))
  {
    CleanAccountsSpec(a.accounts + b.accounts);
    MergedAlso(a, b);
  }

  /** The fields of a merge other than the two lists. */
  ghost function Scalars(m: Meta): Meta {
    m.(accounts := [], also := [])
  }

  /** Two metadata that agree on the scalar fields and on the sets are the same. */
  lemma SameLists(a: Meta, b: Meta)
    requires Ascending(a.accounts) && Ascending(b.accounts) && Elems(a.accounts) == Elems(b.accounts)
    requires Ascending(a.also) && Ascending(b.also) && Elems(a.also) == Elems(b.also)
    requires Scalars(a) == Scalars(b)
    ensures a == b
  {
    AscendingUnique(a.accounts, b.accounts);
    AscendingUnique(a.also, b.also);
  }

  lemma BadVerAssociative(a: Meta, b: Meta, c: Meta)
    requires WellFormed(a) && WellFormed(b) && WellFormed(c)
    ensures Merge(Merge(a, b), c).badVer == Merge(a, Merge(b, c)).badVer
  {
  }

  lemma ScalarsAssociative(a: Meta, b: Meta, c: Meta)
    requires WellFormed(a) && WellFormed(b) && WellFormed(c)
    ensures Scalars(Merge(Merge(a, b), c)) == Scalars(Merge(a, Merge(b, c)))
  {
    BadVerAssociative(a, b, c);
    assert CleanPatch(b.patch) == b.patch && CleanPatch(c.patch) == c.patch;
    CleanPatchStable(First(b.patch, c.patch));
  }

  lemma AccountsAssociative(a: Meta, b: Meta, c: Meta)
    ensures Merge(Merge(a, b), c).accounts == Merge(a, Merge(b, c)).accounts
  {
    MergeJoins(a, b);
    MergeJoins(b, c);
    MergedAccounts(Merge(a, b), c);
    MergedAccounts(a, Merge(b, c));
    AscendingUnique(Merge(Merge(a, b), c).accounts, Merge(a, Merge(b, c)).accounts);
  }

  lemma AlsoAssociative(a: Meta, b: Meta, c: Meta)
    ensures Merge(Merge(a, b), c).also == Merge(a, Merge(b, c)).also
  {
    MergeJoins(a, b);
    MergeJoins(b, c);
    MergedAlso(Merge(a, b), c);
    MergedAlso(a, Merge(b, c));
    AscendingUnique(Merge(Merge(a, b), c).also, Merge(a, Merge(b, c)).also);
  }

  /** Merging is associative: any grouping of the same claims in the same order gives the same object. */
  lemma MergeAssociative(a: Meta, b: Meta, c: Meta)
    requires WellFormed(a) && WellFormed(b) && WellFormed(c)
    ensures Merge(Merge(a, b), c) == Merge(a, Merge(b, c))
  {
    AccountsAssociative(a, b, c);
    AlsoAssociative(a, b, c);
    ScalarsAssociative(a, b, c);
  }

  lemma MergedAccounts(a: Meta, b: Meta)
    ensures Ascending(Merge(a, b).accounts) && Elems(Merge(a, b).accounts) == Wanted(a) + Wanted(b)
  {
    CleanAccountsSpec(a.accounts + b.accounts);
    assert AccountSet(a.accounts + b.accounts) == AccountSet(a.accounts) + AccountSet(b.accounts);
  }

  lemma WellFormedSets(a: Meta)
    requires WellFormed(a)
    ensures Elems(a.accounts) == Wanted(a) && Elems(a.also) == ProtectedSet(a.also)
  {
    CleanAccountsSpec(a.accounts);
    SortedKindsSpec(a.also);
  }

  /** Merging metadata into itself changes nothing, exactly when its kind is not repeated in Also. */
  lemma MergeIdempotent(a: Meta)
    requires WellFormed(a)
    ensures Merge(a, a) == a <==> Settled(a)
  {
    MergeJoins(a, a);
    if Settled(a) {
      MergedAlso(a, a);
      MergedAccounts(a, a);
      WellFormedSets(a);
      assert Claims(a) == ProtectedSet(a.also) + ProtectedSet([a.kind]);
      assert a.kind !in Elems(a.also);
      assert Elems(Merge(a, a).also) == Elems(a.also);
      SameLists(Merge(a, a), a);
    }
  }

  /** The kind kept is the leftmost one of the highest class. */
  lemma MergeKeepsLeftmostHighest(a: Meta, b: Meta)
    ensures IsHighest([a.kind, b.kind], Merge(a, b).kind)
  {
    var ks := [a.kind, b.kind];
    if Class(b.kind) > Class(a.kind) {
      assert ks[1] == b.kind;
    } else {
      assert ks[0] == a.kind;
    }
  }

  // ---- the purge of a student

  /** The metadata function purge-student applies to an object it detaches. */
  function Purge(account: string, m: Meta): Meta {
    var keep := Without(m.accounts, account);
    if keep == [] && m.kind == STUDENT then
      m.(accounts := keep, kind := Best(m.also), also := Without(m.also, Best(m.also)))
    else m.(accounts := keep)
  }

  /** The claim of a student's id. */
  ghost predicate StudentClaim(want: Meta, account: string) {
    WellFormed(want) && want.kind == STUDENT && want.also == [] && want.accounts == [account]
  }

  /** No remembered kind outranks the kind: what merges build from fresh objects. */
  ghost predicate TopKind(m: Meta) {
    forall k | k in m.also :: Class(k) <= Class(m.kind)
  }

  /** Merges and purges keep that form. */
  lemma MergeKeepsTopKind(a: Meta, b: Meta)
    requires TopKind(a) && TopKind(b)
    ensures TopKind(Merge(a, b))
  {
    MergedAlso(a, b);
    forall k | k in Merge(a, b).also ensures Class(k) <= Class(Merge(a, b).kind) {
      assert k in Elems(Merge(a, b).also);
      assert k in a.also + [a.kind] || k in b.also + [b.kind];
    }
  }

  lemma PurgeKeepsTopKind(account: string, m: Meta)
    requires WellFormed(m) && TopKind(m)
    ensures TopKind(Purge(account, m))
  {
    BestIsHighest(m.also);
    WithoutSpec(m.also, Best(m.also));
    forall k | k in Purge(account, m).also ensures Class(k) <= Class(Purge(account, m).kind) {
      assert k in m.also || k in Elems(Without(m.also, Best(m.also)));
    }
  }

  /** The protected claims of an object other than a student's. */
  ghost function Rest(m: Meta): seq<string> {
    Without(SortedKinds(m.also + [m.kind]), STUDENT)
  }

  lemma RestSpec(m: Meta)
    ensures Ascending(Rest(m)) && Elems(Rest(m)) == Claims(m) - {STUDENT}
    ensures forall k | k in Rest(m) :: Protected(k) && k != STUDENT
    ensures ProtectedSet(Rest(m)) == Elems(Rest(m))
  {
    SortedKindsSpec(m.also + [m.kind]);
    WithoutSpec(SortedKinds(m.also + [m.kind]), STUDENT);
    forall k | k in Rest(m) ensures Protected(k) && k != STUDENT { assert k in Elems(Rest(m)); }
  }

  /** What a student's merge makes of an object without ids. */
  lemma StudentMerged(have: Meta, want: Meta, account: string)
    requires WellFormed(have) && have.accounts == [] && StudentClaim(want, account)
    ensures var m := Merge(have, want); m.kind == STUDENT && m.accounts == [account] && m.also == Rest(have)
  {
    hide Without, SortedKinds, CleanAccounts, Rest;
    var m := Merge(have, want);
    RestSpec(have);
    MergedAlso(have, want);
    assert Claims(want) == {STUDENT};
    AscendingUnique(m.also, Rest(have));
    WellFormedSets(want);
    MergedAccounts(have, want);
    assert Wanted(have) == {};
    assert Elems(want.accounts) == Elems(m.accounts);
    AscendingUnique(m.accounts, want.accounts);
  }

  lemma InRest(m: Meta, k: string)
    ensures k in Rest(m) <==> k != STUDENT && Protected(k) && (k in m.also || k == m.kind)
  {
    RestSpec(m);
    assert k in Elems(Rest(m)) <==> k in Rest(m);
    assert k in m.also + [m.kind] <==> k in m.also || k == m.kind;
  }

  lemma HighestOf(ks: seq<string>, k: string)
    requires IsHighest(ks, k)
    ensures if ks == [] then k == COACH else k in ks && forall o | o in ks :: Class(o) <= Class(k)
  {
  }

  /** The best of the claims left has the object's class exactly when no claim but a student's outranks its kind. */
  lemma BestOfRest(have: Meta)
    requires WellFormed(have)
    ensures IsHighest(Rest(have), Best(Rest(have)))
    ensures Rest(have) != [] ==> Best(Rest(have)) in Rest(have)
    ensures Class(Best(Rest(have))) == Class(have.kind) <==>
            have.kind != STUDENT && have.kind != UNKNOWN && forall k | k in have.also && k != STUDENT ::
                Class(k) <= Class(have.kind)
  {
    hide Rest, Best, IsHighest;
    var rest := Rest(have);
    BestIsHighest(rest);
    HighestOf(rest, Best(rest));
    InRest(have, have.kind);
    InRest(have, Best(rest));
    forall k | k in have.also ensures k != STUDENT ==> k in rest {
      InRest(have, k);
    }
    assert forall k | k in rest :: rest != [];
  }

  lemma AllProtected(xs: seq<string>)
    requires forall k | k in xs :: Protected(k)
    ensures ProtectedSet(xs) == Elems(xs)
  {
  }

  /** Taking one kind out of an ascending list and putting it back at the end keeps the elements. */
  lemma OneAndRest(all: seq<string>, k: string)
    requires Ascending(all) && k in all
    ensures Elems(Without(all, k) + [k]) == Elems(all)
  {
    WithoutSpec(all, k);
    assert Elems(Without(all, k) + [k]) == Elems(Without(all, k)) + {k};
    assert k in Elems(all);
  }

  /** Purging undoes a student's merge into an object without ids: no id is left and the claims are those from before,
      except for a student's claim nobody was named for. The class comes back exactly when no other claim outranks the
      kind, which merges see to, and the kind itself exactly when it sorts first among the claims of its class. */
  lemma PurgeUndoesStudentMerge(have: Meta, want: Meta, account: string)
    requires WellFormed(have) && have.accounts == [] && StudentClaim(want, account)
    ensures var back := Purge(account, Merge(have, want));
            && back.accounts == []
            && Claims(back) == Claims(have) - {STUDENT}
            && (Class(back.kind) == Class(have.kind) <==>
                  have.kind != STUDENT && have.kind != UNKNOWN
                  && forall k | k in have.also && k != STUDENT :: Class(k) <= Class(have.kind))
            && (back.kind == have.kind <==> IsHighest(Rest(have), have.kind))
  {
    hide Rest, Best, IsHighest;
    var rest := Rest(have);
    StudentMerged(have, want, account);
    assert Without([account], account) == [];
    RestSpec(have);
    BestOfRest(have);
    if rest != [] {
      OneAndRest(rest, Best(rest));
      var claims := Without(rest, Best(rest)) + [Best(rest)];
      forall k | k in claims ensures Protected(k) { assert k in Elems(claims) && k in Elems(rest); }
      AllProtected(claims);
    } else {
      NothingLeft();
    }
    if IsHighest(rest, have.kind) { HighestUnique(rest, have.kind, Best(rest)); }
  }

  lemma NothingLeft()
    ensures Best([]) == COACH && Without([], COACH) == [] && ProtectedSet([] + [COACH]) == {}
  {
  }

  /** A protected object built by merges, that no student's claim was on: class and claims come back. */
  lemma PurgeRestoresMerged(have: Meta, want: Meta, account: string)
    requires WellFormed(have) && have.accounts == [] && StudentClaim(want, account)
    requires TopKind(have) && Protected(have.kind) && have.kind != STUDENT
    ensures var back := Purge(account, Merge(have, want));
            back.accounts == [] && Claims(back) == Claims(have) && Class(back.kind) == Class(have.kind)
  {
    hide Rest, Merge, Purge, WellFormed;
    PurgeUndoesStudentMerge(have, want, account);
    assert forall k | k in have.also :: k != STUDENT;
    assert Claims(have) == Claims(have) - {STUDENT};
  }

  /** On a class tie the kind itself is not restored: a pro game also kept as a ladder game comes back as ladder. */
  lemma PurgeTie(have: Meta, want: Meta, account: string)
    requires WellFormed(have) && have.kind == PRO && have.also == [LADDER] && have.accounts == []
    requires StudentClaim(want, account)
    ensures Purge(account, Merge(have, want)).kind == LADDER
  {
    hide Rest;
    StudentMerged(have, want, account);
    assert Without([account], account) == [];
    assert Rest(have) == [LADDER, PRO] by { TieRest(have); }
    TieSorted();
  }

  lemma TieRest(have: Meta)
    requires have.kind == PRO && have.also == [LADDER]
    ensures Rest(have) == [LADDER, PRO]
  {
    hide SortedKinds, Best;
    TieSorted();
    assert have.also + [have.kind] == [LADDER, PRO];
    assert [LADDER, PRO][1..] == [PRO] && [PRO][1..] == [];
    assert Without([PRO], STUDENT) == [PRO] + Without([], STUDENT);
  }

  /** A pro game that an audit still claims, as no merge leaves it, comes back as an audited one. */
  lemma PurgeRaisesTheClass(have: Meta, want: Meta, account: string)
    requires WellFormed(have) && have.kind == PRO && have.also == [AUDIT] && have.accounts == []
    requires StudentClaim(want, account)
    ensures Class(Purge(account, Merge(have, want)).kind) != Class(have.kind)
  {
    assert AUDIT in have.also;
    PurgeUndoesStudentMerge(have, want, account);
  }

  lemma TieSorted()
    ensures SortedKinds([LADDER, PRO]) == [LADDER, PRO] && Best([LADDER, PRO]) == LADDER
  {
    assert LADDER[0] < PRO[0];
    assert Less(LADDER, PRO);
    assert Ascending([LADDER, PRO]);
    SortedKindsSpec([LADDER, PRO]);
    assert [LADDER, PRO][..1] == [LADDER];
    assert Best([LADDER]) == LADDER;
  }
}
