/** A replay's user metadata and its stored form (internal/vault/meta.go). */
module Metadata {
  import opened Sets
  import opened Text
  import opened Wrappers
  import opened Kinds

  datatype Meta = Meta(
    kind: string, patch: string, accounts: seq<string>,
    source: string, container: string, storedAt: string, sha256: string,
    bad: bool, badVer: string, corrupt: bool, also: seq<string>)

  /** The names under which the store keeps user metadata. */
  datatype Header =
    | HKind | HPatch | HAccounts | HSource | HContainer | HStoredAt | HSha256 | HBad | HCorrupt | HAlso
    | HOther(name: string)

  type Stored = map<Header, string>

  // ---- the cleaning of single fields

  predicate VersionChar(c: char) {
    IsDigit(c) || 'a' <= c <= 'z' || 'A' <= c <= 'Z' || c == '.' || c == '-' || c == '_'
  }

  function CleanVer(s: string): string {
    var t := Trim(s);
    if |t| <= 32 && forall i | 0 <= i < |t| :: VersionChar(t[i]) then t else ""
  }

  function CleanPatch(s: string): string {
    var t := Trim(s);
    if DigitsOnly(t) && |t| <= 6 then t else ""
  }

  predicate IsAccount(a: string) {
    DigitsOnly(a) && |a| <= 20
  }

  function KeepAccounts(xs: seq<string>): seq<string> {
    if xs == [] then []
    else (if IsAccount(Trim(xs[0])) then [Trim(xs[0])] else []) + KeepAccounts(xs[1..])
  }

  /** The digit-only ids of a list, sorted and unique. */
  function CleanAccounts(xs: seq<string>): seq<string> {
    SortedOf(KeepAccounts(xs))
  }

  function KeepProtected(xs: seq<string>): seq<string> {
    if xs == [] then []
    else (if Protected(xs[0]) then [xs[0]] else []) + KeepProtected(xs[1..])
  }

  /** The protected kinds of a list, sorted and unique. */
  function SortedKinds(xs: seq<string>): seq<string> {
    SortedOf(KeepProtected(xs))
  }

  function SplitAccounts(s: string): seq<string> {
    CleanAccounts(Fields(s))
  }

  /** The ids a list names. */
  ghost function AccountSet(xs: seq<string>): set<string> {
    set x | x in xs && IsAccount(Trim(x)) :: Trim(x)
  }

  ghost function ProtectedSet(xs: seq<string>): set<string> {
    set x | x in xs && Protected(x)
  }

  lemma {:induction false} KeepAccountsSpec(xs: seq<string>)
    ensures Elems(KeepAccounts(xs)) == AccountSet(xs)
  {
    if xs != [] {
      KeepAccountsSpec(xs[1..]);
      assert xs == [xs[0]] + xs[1..];
      assert AccountSet(xs) == AccountSet([xs[0]]) + AccountSet(xs[1..]);
    }
  }

  lemma CleanAccountIsTrim(x: string)
    requires IsAccount(x)
    ensures Trim(x) == x
  {
    TrimSpec(x);
  }

  lemma {:induction false} KeepCleanAccounts(xs: seq<string>)
    requires forall x | x in xs :: IsAccount(x)
    ensures KeepAccounts(xs) == xs
  {
    hide Trim, IsAccount;
    if xs != [] {
      assert xs[0] in xs;
      CleanAccountIsTrim(xs[0]);
      KeepCleanAccounts(xs[1..]);
      assert xs == [xs[0]] + xs[1..];
    }
  }

  lemma {:induction false} KeepProtectedSpec(xs: seq<string>)
    ensures Elems(KeepProtected(xs)) == ProtectedSet(xs)
    ensures (forall x | x in xs :: Protected(x)) ==> KeepProtected(xs) == xs
  {
    if xs != [] {
      KeepProtectedSpec(xs[1..]);
      assert xs == [xs[0]] + xs[1..];
      assert ProtectedSet(xs) == ProtectedSet([xs[0]]) + ProtectedSet(xs[1..]);
      assert xs[0] in xs;
      assert forall x | x in xs[1..] :: x in xs;
    }
  }

  lemma CleanAccountsSpec(xs: seq<string>)
    ensures Ascending(CleanAccounts(xs)) && Elems(CleanAccounts(xs)) == AccountSet(xs)
    ensures Ascending(xs) && (forall x | x in xs :: IsAccount(x)) ==> CleanAccounts(xs) == xs
    ensures forall x | x in CleanAccounts(xs) :: IsAccount(x)
  {
    KeepAccountsSpec(xs);
    SortedOfSpec(KeepAccounts(xs));
    if Ascending(xs) && forall x | x in xs :: IsAccount(x) {
      KeepCleanAccounts(xs);
      SortedOfAscending(xs);
    }
    forall x | x in CleanAccounts(xs) ensures IsAccount(x) {
      assert x in Elems(CleanAccounts(xs));
    }
  }

  lemma SortedKindsSpec(xs: seq<string>)
    ensures Ascending(SortedKinds(xs)) && Elems(SortedKinds(xs)) == ProtectedSet(xs)
    ensures Ascending(xs) && (forall x | x in xs :: Protected(x)) ==> SortedKinds(xs) == xs
    ensures forall x | x in SortedKinds(xs) :: Protected(x)
  {
    KeepProtectedSpec(xs);
    SortedOfSpec(KeepProtected(xs));
    if Ascending(xs) && forall x | x in xs :: Protected(x) { SortedOfAscending(xs); }
    forall x | x in SortedKinds(xs) ensures Protected(x) {
      assert x in Elems(SortedKinds(xs));
    }
  }

  /** The loop of CleanAccounts: one pass with a set of the ids seen, then sort.Strings. */
  method CollectAccounts(xs: seq<string>) returns (r: seq<string>)
    ensures r == CleanAccounts(xs)
  {
    var seen: set<string> := {};
    var out: seq<string> := [];
    for i := 0 to |xs|
      invariant seen == Elems(out) == AccountSet(xs[..i])
      invariant forall a, b | 0 <= a < b < |out| :: out[a] != out[b]
    {
      var a := Trim(xs[i]);
      assert xs[..i + 1] == xs[..i] + [xs[i]];
      assert AccountSet(xs[..i + 1]) == AccountSet(xs[..i]) + AccountSet([xs[i]]);
      if |a| > 20 || !DigitsOnly(a) || a in seen {
        continue;
      }
      seen := seen + {a};
      out := out + [a];
    }
    assert xs[..|xs|] == xs;
    SortedOfSpec(out);
    CleanAccountsSpec(xs);
    AscendingUnique(SortedOf(out), CleanAccounts(xs));
    r := SortedOf(out);
  }

  method CollectKinds(xs: seq<string>) returns (r: seq<string>)
    ensures r == SortedKinds(xs)
  {
    var seen: set<string> := {};
    var out: seq<string> := [];
    for i := 0 to |xs|
      invariant seen == Elems(out) == ProtectedSet(xs[..i])
      invariant forall a, b | 0 <= a < b < |out| :: out[a] != out[b]
    {
      assert xs[..i + 1] == xs[..i] + [xs[i]];
      assert ProtectedSet(xs[..i + 1]) == ProtectedSet(xs[..i]) + ProtectedSet([xs[i]]);
      if Protected(xs[i]) && xs[i] !in seen {
        seen := seen + {xs[i]};
        out := out + [xs[i]];
      }
    }
    assert xs[..|xs|] == xs;
    SortedOfSpec(out);
    SortedKindsSpec(xs);
    AscendingUnique(SortedOf(out), SortedKinds(xs));
    r := SortedOf(out);
  }

  // ---- the stored form

  function BadText(m: Meta): string {
    var v := CleanVer(m.badVer);
    if v != "" && v != "1" then v else "1"
  }

  const HEADERS: set<Header> :=
    {HKind, HPatch, HAccounts, HSource, HContainer, HStoredAt, HSha256, HBad, HCorrupt, HAlso}

  predicate Present(m: Meta, h: Header) {
    match h
    case HKind => m.kind != "" && m.kind != UNKNOWN
    case HPatch => CleanPatch(m.patch) != ""
    case HAccounts => m.accounts != []
    case HSource => m.source != ""
    case HContainer => m.container != ""
    case HStoredAt => m.storedAt != ""
    case HSha256 => m.sha256 != ""
    case HBad => m.bad
    case HCorrupt => m.corrupt
    case HAlso => SortedKinds(m.also) != []
    case HOther(_) => false
  }

  function Value(m: Meta, h: Header): string {
    match h
    case HKind => m.kind
    case HPatch => CleanPatch(m.patch)
    case HAccounts => Join(CleanAccounts(m.accounts), ',')
    case HSource => m.source
    case HContainer => m.container
    case HStoredAt => m.storedAt
    case HSha256 => m.sha256
    case HBad => BadText(m)
    case HCorrupt => "1"
    case HAlso => Join(SortedKinds(m.also), ',')
    case HOther(_) => ""
  }

  /** The order in which ToS3 assigns the names. */
  function Rank(h: Header): nat {
    match h
    case HKind => 0
    case HPatch => 1
    case HAccounts => 2
    case HSource => 3
    case HContainer => 4
    case HStoredAt => 5
    case HSha256 => 6
    case HBad => 7
    case HCorrupt => 8
    case HAlso => 9
    case HOther(_) => 10
  }

  /** The first n names. */
  function Rendered(m: Meta, n: nat): Stored {
    map h | h in HEADERS && Rank(h) < n && Present(m, h) :: Value(m, h)
  }

  function ToS3(m: Meta): Stored {
    Rendered(m, 10)
  }

  function Get(s: Stored, h: Header): string {
    if h in s then s[h] else ""
  }

  function ReadKind(s: string): string {
    if ParseKind(s).None? || Trim(s) == "" then UNKNOWN else ParseKind(s).value
  }

  function ReadNames(names: seq<string>): seq<string> {
    if names == [] then []
    else
      var k := ParseKind(names[0]);
      (if k.Some? && Trim(names[0]) != "" then [k.value] else []) + ReadNames(names[1..])
  }

  function ReadAlso(s: string): seq<string> {
    SortedKinds(ReadNames(Split(s, ',')))
  }

  predicate ReadBad(s: string) {
    Trim(s) != "" && Trim(s) != "0"
  }

  function ReadBadVer(s: string): string {
    if ReadBad(s) && Trim(s) != "1" then CleanVer(Trim(s)) else ""
  }

  function FromS3(s: Stored): Meta {
    Meta(ReadKind(Get(s, HKind)),
         CleanPatch(Get(s, HPatch)),
         SplitAccounts(Get(s, HAccounts)),
         Get(s, HSource), Get(s, HContainer), Get(s, HStoredAt), Get(s, HSha256),
         ReadBad(Get(s, HBad)), ReadBadVer(Get(s, HBad)),
         Get(s, HCorrupt) == "1",
         ReadAlso(Get(s, HAlso)))
  }

  /** Metadata in the form the store hands back. */
  ghost predicate WellFormed(m: Meta) {
    && (IsKind(m.kind) || m.kind == UNKNOWN)
    && CleanPatch(m.patch) == m.patch
    && Ascending(m.accounts) && (forall a | a in m.accounts :: IsAccount(a))
    && Ascending(m.also) && (forall k | k in m.also :: Protected(k))
    && CleanVer(m.badVer) == m.badVer && m.badVer != "0" && m.badVer != "1"
    && (m.badVer != "" ==> m.bad)
  }

  lemma RankOf(h: Header, n: nat)
    requires h in HEADERS && Rank(h) == n
    ensures forall g | g in HEADERS && Rank(g) < n + 1 :: g == h || Rank(g) < n
  {
  }

  /** One guarded assignment of ToS3. */
  method SetHeader(m: Meta, s: Stored, h: Header, cond: bool, v: string) returns (out: Stored)
    requires h in HEADERS && s == Rendered(m, Rank(h))
    requires cond == Present(m, h) && (cond ==> v == Value(m, h))
    ensures out == Rendered(m, Rank(h) + 1)
  {
    RankOf(h, Rank(h));
    out := s;
    if cond {
      out := out[h := v];
    }
  }

  /** ToS3 as the source runs it: one guarded assignment a name, the lists rendered by their loops. */
  method RenderS3(m: Meta) returns (out: Stored)
    ensures out == ToS3(m)
  {
    out := RenderHead(m);
    out := SetHeader(m, out, HStoredAt, m.storedAt != "", m.storedAt);
    out := SetHeader(m, out, HSha256, m.sha256 != "", m.sha256);
    out := RenderFlags(m, out);
    var also := CollectKinds(m.also);
    out := SetHeader(m, out, HAlso, |also| > 0, Join(also, ','));
  }

  method RenderHead(m: Meta) returns (out: Stored)
    ensures out == Rendered(m, Rank(HStoredAt))
  {
    out := map[];
    assert out == Rendered(m, 0);
    out := SetHeader(m, out, HKind, m.kind != "" && m.kind != UNKNOWN, m.kind);
    var p := CleanPatch(m.patch);
    out := SetHeader(m, out, HPatch, p != "", p);
    var clean := CollectAccounts(m.accounts);
    out := SetHeader(m, out, HAccounts, |m.accounts| > 0, Join(clean, ','));
    out := RenderOrigin(m, out);
  }

  method RenderOrigin(m: Meta, s: Stored) returns (out: Stored)
    requires s == Rendered(m, Rank(HSource))
    ensures out == Rendered(m, Rank(HStoredAt))
  {
    out := s;
    out := SetHeader(m, out, HSource, m.source != "", m.source);
    out := SetHeader(m, out, HContainer, m.container != "", m.container);
  }

  method RenderFlags(m: Meta, s: Stored) returns (out: Stored)
    requires s == Rendered(m, Rank(HBad))
    ensures out == Rendered(m, Rank(HAlso))
  {
    var bad := "1";
    var v := CleanVer(m.badVer);
    if v != "" && v != "1" {
      bad := v;
    }
    out := SetHeader(m, s, HBad, m.bad, bad);
    out := SetHeader(m, out, HCorrupt, m.corrupt, "1");
  }

  // ---- round trip

  lemma CleanPatchStable(s: string)
    ensures CleanPatch(CleanPatch(s)) == CleanPatch(s) && CleanPatch("") == ""
  {
    TrimSpec(s);
    TrimSpec(CleanPatch(s));
  }

  lemma CleanVerStable(s: string)
    ensures CleanVer(CleanVer(s)) == CleanVer(s) && Trim(CleanVer(s)) == CleanVer(s) && CleanVer("") == ""
  {
    TrimSpec(s);
    TrimSpec(CleanVer(s));
  }

  lemma ReadKindSpec(s: string)
    ensures IsKind(s) ==> ReadKind(s) == s
    ensures ReadKind("") == UNKNOWN
    ensures IsKind(ReadKind(s)) || ReadKind(s) == UNKNOWN
  {
    if IsKind(s) { ParseOwnName(s); }
  }

  lemma {:induction false} ReadNamesSpec(names: seq<string>)
    requires forall n | n in names :: IsKind(n)
    ensures ReadNames(names) == names
  {
    if names != [] {
      assert names[0] in names;
      ParseOwnName(names[0]);
      assert forall n | n in names[1..] :: n in names;
      ReadNamesSpec(names[1..]);
    }
  }

  /** The account list survives being written as one comma-joined string. */
  lemma AccountsRoundTrip(xs: seq<string>)
    ensures SplitAccounts(Join(CleanAccounts(xs), ',')) == CleanAccounts(xs)
  {
    CleanAccountsSpec(xs);
    var c := CleanAccounts(xs);
    forall p | p in c ensures IsField(p) { assert IsAccount(p); }
    FieldsJoin(c);
    CleanAccountsSpec(c);
  }

  lemma AlsoRoundTrip(xs: seq<string>)
    ensures SortedKinds(xs) != [] ==> ReadAlso(Join(SortedKinds(xs), ',')) == SortedKinds(xs)
    ensures ReadAlso("") == []
  {
    SortedKindsSpec(xs);
    var c := SortedKinds(xs);
    if c != [] {
      forall p | p in c ensures IsKind(p) && ',' !in p {
        assert Protected(p);
        ParseOwnName(p);
      }
      SplitJoin(c, ',');
      ReadNamesSpec(c);
      SortedKindsSpec(c);
    }
  }

  /** The metadata another process reads after m was written. */
  ghost function Norm(m: Meta): Meta {
    FromS3(ToS3(m))
  }

  lemma GetRendered(m: Meta, h: Header)
    requires h in HEADERS
    ensures Get(ToS3(m), h) == if Present(m, h) then Value(m, h) else ""
  {
  }

  lemma StoredBad(m: Meta)
    ensures Get(ToS3(m), HBad) == if m.bad then BadText(m) else ""
  {
  }

  lemma StoredAlso(m: Meta)
    ensures Get(ToS3(m), HAlso) == if SortedKinds(m.also) != [] then Join(SortedKinds(m.also), ',') else ""
  {
  }

  /** Reading the flag back: a version that cleans to "0" reads as no flag at all. */
  lemma BadRoundTrip(ver: string)
    ensures var v := CleanVer(ver); var t := if v != "" && v != "1" then v else "1";
            && (ReadBad(t) <==> v != "0")
            && ReadBadVer(t) == if v != "0" && v != "1" then v else ""
    ensures !ReadBad("") && ReadBadVer("") == ""
  {
    CleanVerStable(ver);
    TrimSpec("1");
    TrimSpec("");
  }

  lemma NormBad(m: Meta)
    ensures ReadBad(Get(ToS3(m), HBad)) == (m.bad && CleanVer(m.badVer) != "0")
    ensures ReadBadVer(Get(ToS3(m), HBad)) ==
            if m.bad && CleanVer(m.badVer) != "0" && CleanVer(m.badVer) != "1" then CleanVer(m.badVer) else ""
  {
    StoredBad(m);
    BadRoundTrip(m.badVer);
  }

  lemma NormAccounts(m: Meta)
    ensures SplitAccounts(Get(ToS3(m), HAccounts)) == CleanAccounts(m.accounts)
  {
    GetRendered(m, HAccounts);
    AccountsRoundTrip(m.accounts);
  }

  lemma NormAlso(m: Meta)
    ensures ReadAlso(Get(ToS3(m), HAlso)) == SortedKinds(m.also)
  {
    StoredAlso(m);
    AlsoRoundTrip(m.also);
  }

  /** What writing and reading back does to each field, for any metadata at all. */
  lemma NormFields(m: Meta)
    ensures Norm(m) == Meta(ReadKind(if m.kind == UNKNOWN then "" else m.kind),
                            CleanPatch(m.patch), CleanAccounts(m.accounts),
                            m.source, m.container, m.storedAt, m.sha256,
                            m.bad && CleanVer(m.badVer) != "0",
                            if m.bad && CleanVer(m.badVer) != "0" && CleanVer(m.badVer) != "1" then CleanVer(m.badVer)
                                else "",
                            m.corrupt, SortedKinds(m.also))
  {
    NormBad(m);
    NormAccounts(m);
    NormAlso(m);
    GetRendered(m, HKind);
    GetRendered(m, HPatch);
    GetRendered(m, HSource);
    GetRendered(m, HContainer);
    GetRendered(m, HStoredAt);
    GetRendered(m, HSha256);
    GetRendered(m, HCorrupt);
    CleanPatchStable(m.patch);
  }

  /** Whatever is stored, what is read is well-formed. */
  lemma FromS3WellFormed(s: Stored)
    ensures WellFormed(FromS3(s))
  {
    ReadKindSpec(Get(s, HKind));
    CleanPatchStable(Get(s, HPatch));
    CleanAccountsSpec(Fields(Get(s, HAccounts)));
    SortedKindsSpec(ReadNames(Split(Get(s, HAlso), ',')));
    var bad := Trim(Get(s, HBad));
    TrimSpec(Get(s, HBad));
    CleanVerStable(bad);
    TrimSpec(bad);
  }

  /** Printing and parsing undo each other exactly on the well-formed metadata. */
  lemma RoundTrip(m: Meta)
    ensures FromS3(ToS3(m)) == m <==> WellFormed(m)
  {
    NormFields(m);
    FromS3WellFormed(ToS3(m));
    if WellFormed(m) {
      ReadKindSpec(m.kind);
      CleanAccountsSpec(m.accounts);
      SortedKindsSpec(m.also);
    }
  }

  /** Go's comparison of two stored forms: equal sizes, and every name of a reads the same in b. */
  predicate EqualMeta(a: Meta, b: Meta) {
    |ToS3(a)| == |ToS3(b)| && forall h | h in ToS3(a) :: Get(ToS3(b), h) == ToS3(a)[h]
  }

  lemma NoEmptyList(xs: seq<string>, sep: char)
    requires xs != [] && xs[0] != ""
    ensures Join(xs, sep) != ""
  {
  }

  /** The account list, if there is one, names a usable id. */
  predicate UsableAccounts(m: Meta) {
    m.accounts == [] || CleanAccounts(m.accounts) != []
  }

  lemma NoEmptyValue(m: Meta, h: Header)
    requires UsableAccounts(m) && h in ToS3(m)
    ensures ToS3(m)[h] != ""
  {
    match h {
      case HAccounts =>
        CleanAccountsSpec(m.accounts);
        assert CleanAccounts(m.accounts)[0] in CleanAccounts(m.accounts);
        NoEmptyList(CleanAccounts(m.accounts), ',');
      case HAlso =>
        SortedKindsSpec(m.also);
        assert SortedKinds(m.also)[0] in SortedKinds(m.also);
        NoEmptyList(SortedKinds(m.also), ',');
      case _ =>
    }
  }

  lemma UsableDecides(a: Meta, b: Meta)
    requires UsableAccounts(a) && EqualMeta(a, b)
    ensures ToS3(a) == ToS3(b)
  {
    forall h | h in ToS3(a) ensures h in ToS3(b) && ToS3(b)[h] == ToS3(a)[h] {
      NoEmptyValue(a, h);
    }
    SubsetSize(ToS3(a).Keys, ToS3(b).Keys);
  }

  /** The same metadata without its account list, and with something under a name it lacks. */
  function InPlaceOfAccounts(m: Meta, h: Header): Meta {
    var n := m.(accounts := []);
    match h
    case HKind => n.(kind := COACH)
    case HPatch => n.(patch := "1")
    case HSource => n.(source := "s")
    case HContainer => n.(container := "s")
    case HStoredAt => n.(storedAt := "s")
    case HSha256 => n.(sha256 := "s")
    case HBad => n.(bad := true)
    case HCorrupt => n.(corrupt := true)
    case HAlso => n.(also := [LADDER])
    case _ => n
  }

  lemma StoredFields(m: Meta)
    ensures forall h :: h in ToS3(m) <==> Present(m, h)
    ensures forall h | h in ToS3(m) :: ToS3(m)[h] == Value(m, h)
  {
  }

  lemma InPlacePresent(a: Meta, h: Header, g: Header)
    requires h in HEADERS && h != HAccounts
    ensures var b := InPlaceOfAccounts(a, h);
            if g == h then Present(b, g)
            else if g == HAccounts then !Present(b, g)
            else Present(b, g) == Present(a, g) && Value(b, g) == Value(a, g)
  {
    hide SortedKinds, CleanPatch, CleanVer, IsDigit;
    if g == h {
      assert CleanPatch("1") == "1" by { CleanOne(); }
      assert SortedKinds([LADDER]) != [] by { SortedLadder(); }
    }
  }

  lemma CleanOne()
    ensures CleanPatch("1") == "1"
  {
    TrimSpec("1");
  }

  lemma SortedLadder()
    ensures SortedKinds([LADDER]) != []
  {
    SortedKindsSpec([LADDER]);
    assert LADDER in ProtectedSet([LADDER]);
  }

  lemma ConfusedWith(a: Meta, h: Header)
    requires !UsableAccounts(a) && h in HEADERS && h !in ToS3(a)
    ensures var b := InPlaceOfAccounts(a, h); EqualMeta(a, b) && ToS3(a) != ToS3(b)
  {
    hide Present, Value, InPlaceOfAccounts, ToS3, UsableAccounts;
    var b := InPlaceOfAccounts(a, h);
    BlankAccounts(a);
    StoredFields(a);
    StoredFields(b);
    forall g ensures g in ToS3(b).Keys <==> g in ToS3(a).Keys - {HAccounts} + {h} {
      InPlacePresent(a, h, g);
    }
    forall g | g in ToS3(a) ensures Get(ToS3(b), g) == ToS3(a)[g] {
      InPlacePresent(a, h, g);
    }
    assert ToS3(b).Keys == ToS3(a).Keys - {HAccounts} + {h};
  }

  lemma BlankAccounts(a: Meta)
    requires !UsableAccounts(a)
    ensures Present(a, HAccounts) && Value(a, HAccounts) == ""
  {
  }

  /** The comparison decides equality of the stored forms, whatever the right side, exactly when the account list of
      the left side is empty or names a usable id, or every name is taken. The vault's own calls always have stored
      metadata on the left, so they never meet the other case. */
  lemma EqualMetaExactly(a: Meta)
    ensures (forall b :: EqualMeta(a, b) <==> ToS3(a) == ToS3(b)) <==> UsableAccounts(a) || ToS3(a).Keys == HEADERS
  {
    if UsableAccounts(a) {
      forall b | EqualMeta(a, b) ensures ToS3(a) == ToS3(b) { UsableDecides(a, b); }
    } else if ToS3(a).Keys == HEADERS {
      forall b | EqualMeta(a, b) ensures ToS3(a) == ToS3(b) {
        SubsetSize(ToS3(b).Keys, ToS3(a).Keys);
      }
    } else {
      var h :| h in HEADERS && h !in ToS3(a);
      ConfusedWith(a, h);
    }
  }

  /** With a stored (hence well-formed) left side the comparison decides equality of the stored forms:
      a rewrite is skipped exactly when it would write what is already there. */
  lemma EqualMetaDecides(a: Meta, b: Meta)
    requires WellFormed(a)
    ensures EqualMeta(a, b) <==> ToS3(a) == ToS3(b)
    ensures EqualMeta(a, b) ==> Norm(b) == a
    ensures WellFormed(b) ==> (EqualMeta(a, b) <==> a == b)
  {
    CleanAccountsSpec(a.accounts);
    if EqualMeta(a, b) { UsableDecides(a, b); }
    RoundTrip(a);
    RoundTrip(b);
  }

  /** Without a well-formed left side it does not: an account list with no usable id is stored as "",
      which a missing name also reads as. */
  lemma EqualMetaNeedsWellFormed()
    ensures exists a, b :: EqualMeta(a, b) && ToS3(a) != ToS3(b)
  {
    var a := Meta("", "", ["x"], "", "", "", "", false, "", false, []);
    assert !UsableAccounts(a) by {
      assert Trim("x") == "x" by { TrimSpec("x"); }
      assert !IsDigit("x"[0]);
      assert KeepAccounts(["x"]) == [];
    }
    ConfusedWith(a, HSource);
  }
}
