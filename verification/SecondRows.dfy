/** Damage summed per second (wide.go, damageSeconds and objectiveSeconds) and the building damage in it against the
    players' tower damage (main.go). */
module SecondRows {
  import opened Sets
  import opened Text

  // ---- sums by key, in the order of the keys

  datatype Hit<K> = Hit(key: K, d: int)

  /** less is a strict total order. */
  ghost predicate Total<K(!new)>(less: (K, K) -> bool) {
    && (forall a, b | less(a, b) :: !less(b, a))
    && (forall a, b | a != b :: less(a, b) || less(b, a))
    && (forall a, b, c | less(a, b) && less(b, c) :: less(a, c))
  }

  ghost predicate Ascending<K>(rows: seq<Hit<K>>, less: (K, K) -> bool) {
    forall i, j | 0 <= i < j < |rows| :: less(rows[i].key, rows[j].key)
  }

  function Sum<K(==)>(hits: seq<Hit<K>>, key: K): int {
    if hits == [] then 0
    else Sum(hits[..|hits| - 1], key) + if hits[|hits| - 1].key == key then hits[|hits| - 1].d else 0
  }

  function Keys<K(==)>(hits: seq<Hit<K>>): set<K> {
    set h | h in hits :: h.key
  }

  /** One row for every key that was hit, with all its damage, in the order of the keys. */
  ghost predicate Aggregates<K(!new)>(hits: seq<Hit<K>>, less: (K, K) -> bool, rows: seq<Hit<K>>) {
    && Ascending(rows, less)
    && Keys(rows) == Keys(hits)
    && forall r | r in rows :: r.d == Sum(hits, r.key)
  }

  function Insert<K>(r: Hit<K>, rows: seq<Hit<K>>, less: (K, K) -> bool): seq<Hit<K>> {
    if rows == [] || less(r.key, rows[0].key) then [r] + rows else [rows[0]] + Insert(r, rows[1..], less)
  }

  lemma {:induction false} InsertSpec<K(!new)>(r: Hit<K>, rows: seq<Hit<K>>, less: (K, K) -> bool)
    requires Total(less) && Ascending(rows, less) && r.key !in Keys(rows)
    ensures Ascending(Insert(r, rows, less), less)
    ensures forall x :: x in Insert(r, rows, less) <==> x == r || x in rows
  {
    if rows != [] && !less(r.key, rows[0].key) {
      assert rows == [rows[0]] + rows[1..];
      assert rows[0].key in Keys(rows);
      InsertSpec(r, rows[1..], less);
      var tail := Insert(r, rows[1..], less);
      forall j | 0 <= j < |tail| ensures less(rows[0].key, tail[j].key) {
        assert tail[j] in tail;
      }
    }
  }

  method SumUp<K(==, !new)>(hits: seq<Hit<K>>) returns (sums: map<K, int>)
    ensures sums.Keys == Keys(hits) && forall k | k in sums :: sums[k] == Sum(hits, k)
  {
    sums := map[];
    for i := 0 to |hits|
      invariant forall k :: k in sums <==> k in Keys(hits[..i])
      invariant forall k :: Sum(hits[..i], k) == if k in sums then sums[k] else 0
    {
      assert hits[..i + 1][..i] == hits[..i] && hits[..i + 1] == hits[..i] + [hits[i]];
      var k := hits[i].key;
      sums := sums[k := (if k in sums then sums[k] else 0) + hits[i].d];
    }
    assert hits[..|hits|] == hits;
  }

  /** Sums by key; the keys of the map come in any order. */
  method Aggregate<K(==, !new)>(hits: seq<Hit<K>>, less: (K, K) -> bool) returns (rows: seq<Hit<K>>)
    requires Total(less)
    ensures Aggregates(hits, less, rows)
  {
    hide Sum;
    var sums := SumUp(hits);
    rows := [];
    var todo := sums.Keys;
    while todo != {}
      invariant todo <= sums.Keys && Ascending(rows, less)
      invariant forall k :: k in Keys(rows) <==> k in sums && k !in todo
      invariant forall r | r in rows :: r.key in sums && r.d == sums[r.key]
      decreases |todo|
    {
      ghost var some := Member(todo);
      var k: K :| k in todo;
      todo := todo - {k};
      InsertSpec(Hit(k, sums[k]), rows, less);
      InsertKeys(Hit(k, sums[k]), rows, less);
      rows := Insert(Hit(k, sums[k]), rows, less);
    }
  }

  lemma InsertKeys<K(!new)>(r: Hit<K>, rows: seq<Hit<K>>, less: (K, K) -> bool)
    requires forall x :: x in Insert(r, rows, less) <==> x == r || x in rows
    ensures Keys(Insert(r, rows, less)) == Keys(rows) + {r.key}
  {
    assert r in Insert(r, rows, less);
    forall k | k in Keys(rows) ensures k in Keys(Insert(r, rows, less)) {
      var x :| x in rows && x.key == k;
      assert x in Insert(r, rows, less);
    }
  }

  // ---- the rows depend on the hits only, not on their order

  lemma HasRow<K(!new)>(rows: seq<Hit<K>>)
    requires rows != []
    ensures exists r :: r in rows
  {
    assert rows[0] in rows;
  }

  lemma {:induction false} AscendingUnique<K(!new)>(a: seq<Hit<K>>, b: seq<Hit<K>>, less: (K, K) -> bool)
    requires Total(less) && Ascending(a, less) && Ascending(b, less) && forall x :: x in a <==> x in b
    ensures a == b
  {
    if a == [] || b == [] {
      if a != [] { HasRow(a); }
      if b != [] { HasRow(b); }
    } else {
      SameFirst(a, b, less);
      var x := a[0];
      assert a == [x] + a[1..] && b == [x] + b[1..];
      forall y ensures y in a[1..] <==> y in b[1..] {
        NotFirst(a, less, y);
        NotFirst(b, less, y);
      }
      AscendingUnique(a[1..], b[1..], less);
    }
  }

  lemma SameFirst<K(!new)>(a: seq<Hit<K>>, b: seq<Hit<K>>, less: (K, K) -> bool)
    requires Total(less) && Ascending(a, less) && Ascending(b, less) && a != [] && b != []
    requires forall x :: x in a <==> x in b
    ensures a[0] == b[0]
  {
    assert a[0] in a && b[0] in b;
    var i :| 0 <= i < |b| && b[i] == a[0];
    var j :| 0 <= j < |a| && a[j] == b[0];
  }

  lemma NotFirst<K(!new)>(a: seq<Hit<K>>, less: (K, K) -> bool, y: Hit<K>)
    requires Total(less) && Ascending(a, less) && a != []
    ensures y in a[1..] <==> y in a && y != a[0]
  {
    assert a == [a[0]] + a[1..];
    if y in a[1..] {
      var j :| 0 <= j < |a[1..]| && a[1..][j] == y;
      assert a[j + 1] == y;
    }
  }

  lemma {:induction false} SumJoin<K>(a: seq<Hit<K>>, b: seq<Hit<K>>, key: K)
    ensures Sum(a + b, key) == Sum(a, key) + Sum(b, key)
  {
    if b == [] {
      assert a + b == a;
    } else {
      var n := |b| - 1;
      SumJoin(a, b[..n], key);
      assert (a + b)[..|a| + n] == a + b[..n];
    }
  }

  lemma Removed<K>(b: seq<Hit<K>>, i: nat, key: K)
    requires i < |b|
    ensures multiset(b) == multiset(b[..i] + b[i + 1..]) + multiset{b[i]}
    ensures Sum(b, key) == Sum(b[..i] + b[i + 1..], key) + if b[i].key == key then b[i].d else 0
  {
    hide Sum;
    assert b == b[..i] + [b[i]] + b[i + 1..];
    SumJoin(b[..i] + [b[i]], b[i + 1..], key);
    SumJoin(b[..i], [b[i]], key);
    SumJoin(b[..i], b[i + 1..], key);
    OneHit(b[i], key);
  }

  lemma {:induction false} SumPermuted<K>(a: seq<Hit<K>>, b: seq<Hit<K>>, key: K)
    requires multiset(a) == multiset(b)
    ensures Sum(a, key) == Sum(b, key)
  {
    hide Sum;
    if a == [] {
      assert |multiset(b)| == 0;
    } else {
      var n := |a| - 1;
      assert a[n] in multiset(b);
      var i :| 0 <= i < |b| && b[i] == a[n];
      Removed(a, n, key);
      Removed(b, i, key);
      assert multiset(a[..n] + a[n + 1..]) == multiset(a) - multiset{a[n]};
      assert multiset(b[..i] + b[i + 1..]) == multiset(b) - multiset{a[n]};
      SumPermuted(a[..n] + a[n + 1..], b[..i] + b[i + 1..], key);
    }
  }

  lemma OneHit<K>(x: Hit<K>, key: K)
    ensures Sum([x], key) == if x.key == key then x.d else 0
  {
    assert [x][..0] == [];
  }

  /** The same hits in any other order give the same rows. */
  lemma OrderIsIrrelevant<K(!new)>(hits: seq<Hit<K>>, hits': seq<Hit<K>>, less: (K, K) -> bool, rows: seq<Hit<K>>,
                            rows': seq<Hit<K>>)
    requires Total(less) && multiset(hits) == multiset(hits')
    requires Aggregates(hits, less, rows) && Aggregates(hits', less, rows')
    ensures rows == rows'
  {
    hide Sum, Total, Ascending;
    assert forall h :: h in hits <==> h in multiset(hits);
    assert forall h :: h in hits' <==> h in multiset(hits');
    assert Keys(hits) == Keys(hits');
    forall k { SumPermuted(hits, hits', k); }
    forall r ensures r in rows <==> r in rows' {
      OneRow(hits, hits', less, rows, rows', r);
      OneRow(hits', hits, less, rows', rows, r);
    }
    AscendingUnique(rows, rows', less);
  }

  lemma OneRow<K(!new)>(hits: seq<Hit<K>>, hits': seq<Hit<K>>, less: (K, K) -> bool, rows: seq<Hit<K>>,
                 rows': seq<Hit<K>>, r: Hit<K>)
    requires Aggregates(hits, less, rows) && Aggregates(hits', less, rows') && Keys(hits) == Keys(hits')
    requires forall k :: Sum(hits, k) == Sum(hits', k)
    ensures r in rows ==> r in rows'
  {
    hide Sum, Ascending;
    if r in rows {
      assert r.key in Keys(rows');
      var x :| x in rows' && x.key == r.key;
      assert x == r;
    }
  }

  // ---- seconds

  /** Go's conversion of a float to an int. */
  function Truncated(t: real): int {
    if t >= 0.0 then t.Floor else -((-t).Floor)
  }

  /** The game second of a stamp as the source computes it, for pregame stamps too. */
  function Second(t: real): int {
    var s := Truncated(t);
    if t < 0.0 && s as real != t then s - 1 else s
  }

  /** It is the floor, also below zero. */
  lemma SecondIsFloor(t: real)
    ensures Second(t) as real <= t < Second(t) as real + 1.0
  {
  }

  // ---- damage to heroes

  datatype DamageHit = DamageHit(t: real, attacker: int, victim: int, kind: int, d: int, bear: bool)

  datatype DamageKey = DamageKey(t: int, attacker: int, victim: int, kind: int, bear: bool)

  predicate DamageLess(a: DamageKey, b: DamageKey) {
    if a.t != b.t then a.t < b.t
    else if a.victim != b.victim then a.victim < b.victim
    else if a.attacker != b.attacker then a.attacker < b.attacker
    else if a.kind != b.kind then a.kind < b.kind
    else !a.bear && b.bear
  }

  function DamageHits(hits: seq<DamageHit>): seq<Hit<DamageKey>> {
    seq(|hits|, i requires 0 <= i < |hits| =>
      Hit(DamageKey(Second(hits[i].t), hits[i].attacker, hits[i].victim, hits[i].kind, hits[i].bear), hits[i].d))
  }

  lemma DamageTotal()
    ensures Total(DamageLess)
  {
  }

  method DamageSeconds(hits: seq<DamageHit>) returns (rows: seq<Hit<DamageKey>>)
    ensures Aggregates(DamageHits(hits), DamageLess, rows)
  {
    DamageTotal();
    rows := Aggregate(DamageHits(hits), DamageLess);
  }

  // ---- damage to objectives

  datatype ObjectiveKey = ObjectiveKey(t: int, attacker: nat, name: string)

  predicate ObjectiveLess(a: ObjectiveKey, b: ObjectiveKey) {
    if a.t != b.t then a.t < b.t
    else if a.attacker != b.attacker then a.attacker < b.attacker
    else Less(a.name, b.name)
  }

  lemma ObjectiveTotal()
    ensures Total(ObjectiveLess)
  {
    hide Less;
    forall a, b | ObjectiveLess(a, b) ensures !ObjectiveLess(b, a) { LessTotal(a.name, b.name); }
    forall a, b | a != b ensures ObjectiveLess(a, b) || ObjectiveLess(b, a) { LessTotal(a.name, b.name); }
    forall a, b, c | ObjectiveLess(a, b) && ObjectiveLess(b, c) ensures ObjectiveLess(a, c) {
      if Less(a.name, b.name) && Less(b.name, c.name) { LessTransitive(a.name, b.name, c.name); }
    }
  }

  predicate At(s: string, part: string, i: nat) {
    i + |part| <= |s| && s[i..i + |part|] == part
  }

  predicate Contains(s: string, part: string) {
    exists i: nat | i <= |s| :: At(s, part, i)
  }

  const PARTS := ["tower", "rax", "barrack", "fort", "ancient", "shrine", "building"]
  const DOTA := "npc_dota_"
  const ROSHAN := "roshan"
  const TORMENTOR := "tormentor"

  predicate IsBuilding(name: string) {
    name != "" && exists k | 0 <= k < |PARTS| :: Contains(name, PARTS[k])
  }

  /** The side of a building; None: undecidable. */
  datatype Side = Radiant | Dire | Unknown

  function SideOf(name: string): Side {
    if Contains(name, "goodguys") then Radiant else if Contains(name, "badguys") then Dire else Unknown
  }

  /** A building of the attacker's enemies. */
  predicate EnemyBuilding(target: string, attackerRadiant: bool) {
    IsBuilding(target) && SideOf(target) != Unknown && (SideOf(target) == Radiant) != attackerRadiant
  }

  function Trimmed(name: string): string {
    if DOTA <= name then name[|DOTA|..] else name
  }

  function ObjectiveName(target: string, attackerRadiant: bool): string {
    if target == "npc_dota_roshan" then ROSHAN
    else if "npc_dota_miniboss" <= target then TORMENTOR
    else if EnemyBuilding(target, attackerRadiant) then Trimmed(target)
    else ""
  }

  /** One damage entry of the combat log; owner -1: no player is behind it. */
  datatype Entry = Entry(t: real, target: string, owner: int, d: nat)

  /** The two records of building damage: the hits behind the per-second rows and the players' tower damage. */
  class DamageLog {
    const radiant: seq<bool>               // the side of each player slot
    var hits: seq<Hit<ObjectiveKey>>       // ObjectiveHits, by second
    var tower: seq<nat>                    // TowerDamage

    constructor (radiant: seq<bool>)
      ensures this.radiant == radiant && hits == [] && tower == seq(|radiant|, _ => 0)
    {
      this.radiant, hits, tower := radiant, [], seq(|radiant|, _ => 0);
    }

    ghost predicate Valid()
      reads this
    {
      |tower| == |radiant|
    }

    method Record(e: Entry)
      requires Valid()
      modifies this
      ensures Valid()
      ensures hits == old(hits) + HitOf(e, radiant)
      ensures forall p: nat | p < |radiant| :: tower[p] == old(tower)[p] + TowerOf(e, radiant, p)
    {
      if e.d > 0 && 0 <= e.owner < |radiant| {
        var o := ObjectiveName(e.target, radiant[e.owner]);
        if o != "" {
          hits := hits + [Hit(ObjectiveKey(Second(e.t), e.owner, o), e.d)];
        }
      }
      if IsBuilding(e.target) && 0 <= e.owner < |radiant| {
        if EnemyBuilding(e.target, radiant[e.owner]) {
          tower := tower[e.owner := tower[e.owner] + e.d];
        }
      }
    }
  }

  function HitOf(e: Entry, radiant: seq<bool>): seq<Hit<ObjectiveKey>> {
    if e.d > 0 && 0 <= e.owner < |radiant| && ObjectiveName(e.target, radiant[e.owner]) != ""
    then [Hit(ObjectiveKey(Second(e.t), e.owner, ObjectiveName(e.target, radiant[e.owner])), e.d)] else []
  }

  function TowerOf(e: Entry, radiant: seq<bool>, p: nat): nat
    requires p < |radiant|
  {
    if e.owner == p && EnemyBuilding(e.target, radiant[p]) then e.d else 0
  }

  // ---- the rows against the tower damage

  function HitsOf(log: seq<Entry>, radiant: seq<bool>): seq<Hit<ObjectiveKey>> {
    if log == [] then [] else HitsOf(log[..|log| - 1], radiant) + HitOf(log[|log| - 1], radiant)
  }

  function TowerDamage(log: seq<Entry>, radiant: seq<bool>, p: nat): nat
    requires p < |radiant|
  {
    if log == [] then 0 else TowerDamage(log[..|log| - 1], radiant, p) + TowerOf(log[|log| - 1], radiant, p)
  }

  /** A row or hit of player p on something other than Roshan and the Tormentor. */
  predicate OnBuilding(k: ObjectiveKey, p: nat) {
    k.attacker == p && k.name != ROSHAN && k.name != TORMENTOR
  }

  function BuildingDamage(rows: seq<Hit<ObjectiveKey>>, p: nat): int {
    if rows == [] then 0
    else BuildingDamage(rows[..|rows| - 1], p) + if OnBuilding(rows[|rows| - 1].key, p) then rows[|rows| - 1].d else 0
  }

  /** Damage to enemy buildings that have no building's name among the objectives. */
  function Misnamed(log: seq<Entry>, radiant: seq<bool>, p: nat): nat
    requires p < |radiant|
  {
    if log == [] then 0
    else Misnamed(log[..|log| - 1], radiant, p) + MisnamedOf(log[|log| - 1], radiant, p)
  }

  function MisnamedOf(e: Entry, radiant: seq<bool>, p: nat): nat
    requires p < |radiant|
  {
    if ObjectiveName(e.target, radiant[p]) in {ROSHAN, TORMENTOR, ""} then TowerOf(e, radiant, p) else 0
  }

  /** Among the enemy buildings exactly those called like a Tormentor are misnamed. */
  lemma MisnamedAreTormentors(e: Entry, radiant: seq<bool>, p: nat)
    requires p < |radiant|
    ensures MisnamedOf(e, radiant, p) == if "npc_dota_miniboss" <= e.target then TowerOf(e, radiant, p) else 0
  {
    hide Contains, SideOf, IsBuilding;
    NeitherSide();
    if !("npc_dota_miniboss" <= e.target) && DOTA <= e.target {
      assert e.target == DOTA + Trimmed(e.target);
      assert DOTA + "" == "npc_dota_" && DOTA + ROSHAN == "npc_dota_roshan" && DOTA + TORMENTOR == "npc_dota_tormentor";
    }
    assert "npc_dota_miniboss" <= e.target ==> e.target != "npc_dota_roshan";
  }

  /** No other name that could be mistaken belongs to a side. */
  lemma NeitherSide()
    ensures SideOf("") == SideOf("roshan") == SideOf("tormentor") == Unknown
    ensures SideOf("npc_dota_") == SideOf("npc_dota_roshan") == SideOf("npc_dota_tormentor") == Unknown
  {
    NoSide("");
    NoSide("roshan");
    NoSide("tormentor");
    NoSide("npc_dota_");
    NoSide("npc_dota_roshan");
    NoSide("npc_dota_tormentor");
  }

  lemma NoSide(s: string)
    requires 'g' !in s
    ensures SideOf(s) == Unknown
  {
    forall i: nat | i <= |s| ensures !At(s, "goodguys", i) && !At(s, "badguys", i) {
      if i + 7 <= |s| {
        assert s[i..i + 7][3] == s[i + 3] && "badguys"[3] == 'g';
      }
      if i + 8 <= |s| {
        assert s[i..i + 8][0] == s[i] && "goodguys"[0] == 'g';
      }
    }
  }

  const TORMENTOR_TOWER := "npc_dota_miniboss_badguys_tower"

  lemma NotGood()
    ensures !Contains(TORMENTOR_TOWER, "goodguys")
  {
    var s := TORMENTOR_TOWER;
    var head, tail := "npc_dota_miniboss_bad", "uys_tower";
    assert s == head + "g" + tail && |head| == 21 && 'g' !in head && 'g' !in tail;
    forall i: nat | i <= |s| ensures !At(s, "goodguys", i) {
      if i + 8 <= |s| {
        assert s[i..i + 8][0] == s[i] && s[i..i + 8][1] == s[i + 1];
        assert "goodguys"[0] == 'g' && "goodguys"[1] == 'o';
        assert i < 21 ==> s[i] == head[i];
        assert i > 21 ==> s[i] == tail[i - 22];
        assert i == 21 ==> s[i + 1] == tail[0];
      }
    }
  }

  lemma DireTower()
    ensures IsBuilding(TORMENTOR_TOWER) && SideOf(TORMENTOR_TOWER) == Dire
  {
    var s := TORMENTOR_TOWER;
    NotGood();
    assert Contains(s, PARTS[0]) by {
      assert s == "npc_dota_miniboss_badguys_" + PARTS[0];
      assert At(s, PARTS[0], 26);
    }
    assert Contains(s, "badguys") by {
      assert s[18..25] == "badguys" && At(s, "badguys", 18);
    }
  }

  /** A tower called like a Tormentor, a name no unit of the game bears: its damage is in no building row. */
  lemma TormentorTower()
    ensures var log := [Entry(60.0, TORMENTOR_TOWER, 0, 50)];
            TowerDamage(log, [true], 0) == 50 == Misnamed(log, [true], 0)
  {
    hide IsBuilding, SideOf;
    var e := Entry(60.0, TORMENTOR_TOWER, 0, 50);
    DireTower();
    assert EnemyBuilding(e.target, true);
    assert "npc_dota_miniboss" <= e.target && e.target != "npc_dota_roshan";
    assert ObjectiveName(e.target, true) == TORMENTOR;
    assert [e][..0] == [];
  }

  lemma BuildingDamageStep(rows: seq<Hit<ObjectiveKey>>, r: Hit<ObjectiveKey>, p: nat)
    ensures BuildingDamage(rows + [r], p) == BuildingDamage(rows, p) + if OnBuilding(r.key, p) then r.d else 0
  {
    assert (rows + [r])[..|rows|] == rows;
  }

  /** What the log adds to a player's tower damage goes into his building hits, but for the misnamed. */
  lemma {:induction false} TowerIsHits(log: seq<Entry>, radiant: seq<bool>, p: nat)
    requires p < |radiant|
    ensures TowerDamage(log, radiant, p) == BuildingDamage(HitsOf(log, radiant), p) + Misnamed(log, radiant, p)
  {
    hide EnemyBuilding, BuildingDamage, ObjectiveName;
    if log == [] {
      NoDamage(p);
    } else {
      var n := |log| - 1;
      TowerIsHits(log[..n], radiant, p);
      var e := log[n];
      var before := HitsOf(log[..n], radiant);
      NameOfBuilding(e.target, radiant, p);
      if HitOf(e, radiant) == [] {
        assert HitsOf(log, radiant) == before;
      } else {
        BuildingDamageStep(before, HitOf(e, radiant)[0], p);
        assert HitsOf(log, radiant) == before + [HitOf(e, radiant)[0]];
      }
    }
  }

  lemma NoDamage(p: nat)
    ensures BuildingDamage([], p) == 0
  {
  }

  /** A name that is none of the three is an enemy building's. */
  lemma NameOfBuilding(target: string, radiant: seq<bool>, p: nat)
    requires p < |radiant|
    ensures ObjectiveName(target, radiant[p]) !in {ROSHAN, TORMENTOR, ""} ==> EnemyBuilding(target, radiant[p])
  {
  }

  // The rows add up to the hits.

  lemma {:induction false} UpdateRow(rows: seq<Hit<ObjectiveKey>>, i: nat, d: int, p: nat)
    requires i < |rows|
    ensures BuildingDamage(rows[i := Hit(rows[i].key, d)], p) ==
            BuildingDamage(rows, p) + if OnBuilding(rows[i].key, p) then d - rows[i].d else 0
  {
    var n := |rows| - 1;
    var updated := rows[i := Hit(rows[i].key, d)];
    if i == n {
      assert updated[..n] == rows[..n];
    } else {
      UpdateRow(rows[..n], i, d, p);
      assert updated[..n] == rows[..n][i := Hit(rows[i].key, d)];
    }
  }

  lemma {:induction false} NothingInRows(rows: seq<Hit<ObjectiveKey>>, p: nat)
    requires forall r | r in rows :: r.d == 0
    ensures BuildingDamage(rows, p) == 0
  {
    if rows != [] {
      assert forall r | r in rows[..|rows| - 1] :: r in rows;
      assert rows[|rows| - 1] in rows;
      NothingInRows(rows[..|rows| - 1], p);
    }
  }

  lemma {:induction false} RowsAddUp(hits: seq<Hit<ObjectiveKey>>, rows: seq<Hit<ObjectiveKey>>, p: nat)
    requires Ascending(rows, ObjectiveLess) && Keys(hits) <= Keys(rows)
    requires forall r | r in rows :: r.d == Sum(hits, r.key)
    ensures BuildingDamage(rows, p) == BuildingDamage(hits, p)
  {
    hide OnBuilding, Ascending, BuildingDamage, Sum;
    if hits == [] {
      NoneHit(rows);
      NothingInRows(rows, p);
      NoDamage(p);
    } else {
      var n := |hits| - 1;
      var h := hits[n];
      assert h in hits && h.key in Keys(rows);
      var i :| 0 <= i < |rows| && rows[i].key == h.key;
      var less := rows[i := Hit(h.key, rows[i].d - h.d)];
      UpdateRow(rows, i, rows[i].d - h.d, p);
      OneLess(hits, rows, i, less);
      RowsAddUp(hits[..n], less, p);
      assert hits == hits[..n] + [h];
      BuildingDamageStep(hits[..n], h, p);
    }
  }

  lemma NoneHit(rows: seq<Hit<ObjectiveKey>>)
    ensures forall r | r in rows :: Sum([], r.key) == 0
  {
  }

  lemma OneLess(hits: seq<Hit<ObjectiveKey>>, rows: seq<Hit<ObjectiveKey>>, i: nat, less: seq<Hit<ObjectiveKey>>)
    requires Ascending(rows, ObjectiveLess) && hits != [] && Keys(hits) <= Keys(rows)
    requires forall r | r in rows :: r.d == Sum(hits, r.key)
    requires i < |rows| && rows[i].key == hits[|hits| - 1].key
    requires less == rows[i := Hit(rows[i].key, rows[i].d - hits[|hits| - 1].d)]
    ensures Ascending(less, ObjectiveLess) && Keys(hits[..|hits| - 1]) <= Keys(less)
    ensures forall r | r in less :: r.d == Sum(hits[..|hits| - 1], r.key)
  {
    hide ObjectiveLess;
    ObjectiveTotal();
    var n := |hits| - 1;
    assert forall j | 0 <= j < |rows| :: less[j].key == rows[j].key;
    forall r | r in less ensures r.d == Sum(hits[..n], r.key) {
      var j :| 0 <= j < |less| && less[j] == r;
      assert rows[j] in rows;
      if j < i { assert ObjectiveLess(rows[j].key, rows[i].key); }
      if i < j { assert ObjectiveLess(rows[i].key, rows[j].key); }
    }
    forall k | k in Keys(hits[..n]) ensures k in Keys(less) {
      var h :| h in hits[..n] && h.key == k;
      assert h in hits && k in Keys(rows);
      var j :| 0 <= j < |rows| && rows[j].key == k;
      assert less[j] in less;
    }
  }

  /** Over any damage log a player's building rows sum to his tower damage exactly when no enemy building he hit was
      misnamed. */
  lemma RowsAreTowerDamage(log: seq<Entry>, radiant: seq<bool>, rows: seq<Hit<ObjectiveKey>>, p: nat)
    requires p < |radiant| && Aggregates(HitsOf(log, radiant), ObjectiveLess, rows)
    ensures BuildingDamage(rows, p) + Misnamed(log, radiant, p) == TowerDamage(log, radiant, p)
    ensures BuildingDamage(rows, p) == TowerDamage(log, radiant, p) <==> Misnamed(log, radiant, p) == 0
  {
    hide Sum, BuildingDamage, TowerDamage, Misnamed, HitsOf;
    TowerIsHits(log, radiant, p);
    RowsAddUp(HitsOf(log, radiant), rows, p);
  }

  /** A whole log: the objective rows and the tower damage it leaves. */
  method Read(log: seq<Entry>, radiant: seq<bool>) returns (rows: seq<Hit<ObjectiveKey>>, tower: seq<nat>)
    ensures Aggregates(HitsOf(log, radiant), ObjectiveLess, rows)
    ensures |tower| == |radiant| && forall p: nat | p < |radiant| :: tower[p] == TowerDamage(log, radiant, p)
  {
    hide HitOf, TowerOf, ObjectiveLess;
    var l := new DamageLog(radiant);
    for i := 0 to |log|
      invariant l.Valid() && l.radiant == radiant && l.hits == HitsOf(log[..i], radiant)
      invariant forall p: nat | p < |radiant| :: l.tower[p] == TowerDamage(log[..i], radiant, p)
    {
      assert log[..i + 1][..i] == log[..i];
      l.Record(log[i]);
    }
    assert log[..|log|] == log;
    ObjectiveTotal();
    rows := Aggregate(l.hits, ObjectiveLess);
    tower := l.tower;
  }

  // ---- the same in plain words

  /** part stands somewhere in s. */
  ghost predicate Has(s: string, part: string) {
    exists front, rest :: s == front + part + rest
  }

  lemma ContainsMeans(s: string, part: string)
    ensures Contains(s, part) <==> Has(s, part)
  {
    if Contains(s, part) {
      var i: nat :| i <= |s| && At(s, part, i);
      assert s == s[..i] + part + s[i + |part|..];
    }
    if Has(s, part) {
      var front, rest :| s == front + part + rest;
      assert s[|front|..|front| + |part|] == part;
      assert At(s, part, |front|);
    }
  }

  /** A building's name has one of the seven words in it. */
  ghost predicate NamesBuilding(s: string) {
    Has(s, "tower") || Has(s, "rax") || Has(s, "barrack") || Has(s, "fort") || Has(s, "ancient") || Has(s, "shrine")
    || Has(s, "building")
  }

  lemma BuildingMeans(s: string)
    ensures IsBuilding(s) <==> NamesBuilding(s)
  {
    hide Contains, Has;
    forall k | 0 <= k < |PARTS| ensures Contains(s, PARTS[k]) == Has(s, PARTS[k]) && !Contains("", PARTS[k]) {
      ContainsMeans(s, PARTS[k]);
      NothingInEmpty(PARTS[k]);
    }
    assert Contains(s, PARTS[0]) == Has(s, "tower") && Contains(s, PARTS[1]) == Has(s, "rax")
           && Contains(s, PARTS[2]) == Has(s, "barrack") && Contains(s, PARTS[3]) == Has(s, "fort")
           && Contains(s, PARTS[4]) == Has(s, "ancient") && Contains(s, PARTS[5]) == Has(s, "shrine")
           && Contains(s, PARTS[6]) == Has(s, "building");
  }

  lemma NothingInEmpty(part: string)
    ensures part != "" ==> !Contains("", part)
  {
  }

  /** The attacker's enemies are the side in the building's name; a name with both is the Radiant's. */
  ghost predicate NamesEnemy(s: string, attackerRadiant: bool) {
    if attackerRadiant then Has(s, "badguys") && !Has(s, "goodguys") else Has(s, "goodguys")
  }

  lemma EnemyMeans(s: string, attackerRadiant: bool)
    ensures EnemyBuilding(s, attackerRadiant) <==> NamesBuilding(s) && NamesEnemy(s, attackerRadiant)
  {
    hide Contains, Has, IsBuilding, NamesBuilding;
    BuildingMeans(s);
    ContainsMeans(s, "goodguys");
    ContainsMeans(s, "badguys");
  }

  /** What a target is called among the objectives: Roshan, Tormentor, an enemy building's name without the game's
      prefix, and nothing else. */
  lemma NameMeans(target: string, attackerRadiant: bool)
    ensures var name := ObjectiveName(target, attackerRadiant);
            && (target == "npc_dota_roshan" ==> name == "roshan")
            && ("npc_dota_miniboss" <= target ==> name == "tormentor")
            && (target != "npc_dota_roshan" && !("npc_dota_miniboss" <= target) ==>
                  if NamesBuilding(target) && NamesEnemy(target, attackerRadiant)
                  then name == target || target == "npc_dota_" + name
                  else name == "")
            && (name == target ==> !("npc_dota_" <= target))
  {
    hide Contains, Has, IsBuilding, NamesBuilding, NamesEnemy, EnemyBuilding;
    EnemyMeans(target, attackerRadiant);
    if DOTA <= target { assert target == "npc_dota_" + target[|DOTA|..]; }
    assert |"roshan"| < |"npc_dota_roshan"| && |"tormentor"| < |"npc_dota_miniboss"|;
  }

  /** The damage of player p to the objective in the second that begins at t, entry by entry. */
  ghost function Dealt(log: seq<Entry>, radiant: seq<bool>, t: int, p: nat, name: string): nat
    requires p < |radiant|
  {
    if log == [] then 0
    else
      var e := log[|log| - 1];
      Dealt(log[..|log| - 1], radiant, t, p, name)
      + if e.owner == p && t as real <= e.t < t as real + 1.0 && ObjectiveName(e.target, radiant[p]) == name then e.d
        else 0
  }

  lemma {:induction false} SumIsDealt(log: seq<Entry>, radiant: seq<bool>, t: int, p: nat, name: string)
    requires p < |radiant| && name != ""
    ensures Sum(HitsOf(log, radiant), ObjectiveKey(t, p, name)) == Dealt(log, radiant, t, p, name)
  {
    hide ObjectiveName, Second, Sum;
    if log == [] {
      NoHits(ObjectiveKey(t, p, name));
    } else {
      var n := |log| - 1;
      SumIsDealt(log[..n], radiant, t, p, name);
      SumJoin(HitsOf(log[..n], radiant), HitOf(log[n], radiant), ObjectiveKey(t, p, name));
      HitIsDealt(log[n], radiant, t, p, name);
    }
  }

  lemma NoHits<K>(key: K)
    ensures Sum([], key) == 0
  {
  }

  lemma SameSecond(t: int, x: real)
    ensures Second(x) == t <==> t as real <= x < t as real + 1.0
  {
    SecondIsFloor(x);
  }

  lemma HitIsDealt(e: Entry, radiant: seq<bool>, t: int, p: nat, name: string)
    requires p < |radiant| && name != ""
    ensures Sum(HitOf(e, radiant), ObjectiveKey(t, p, name)) ==
            if e.owner == p && t as real <= e.t < t as real + 1.0 && ObjectiveName(e.target, radiant[p]) == name
            then e.d else 0
  {
    hide ObjectiveName, Second, Sum;
    SameSecond(t, e.t);
    NoHits(ObjectiveKey(t, p, name));
    if HitOf(e, radiant) != [] { OneHit(HitOf(e, radiant)[0], ObjectiveKey(t, p, name)); }
  }

  /** The rows hold each player's damage to each objective second by second: one row has it all, and where there is
      none there was no damage; they come by time, then by player. */
  lemma RowsAreTheDamage(log: seq<Entry>, radiant: seq<bool>, rows: seq<Hit<ObjectiveKey>>, t: int, p: nat,
                         name: string)
    requires p < |radiant| && name != "" && Aggregates(HitsOf(log, radiant), ObjectiveLess, rows)
    ensures forall r | r in rows && r.key == ObjectiveKey(t, p, name) :: 0 < r.d == Dealt(log, radiant, t, p, name)
    ensures (exists r :: r in rows && r.key == ObjectiveKey(t, p, name)) || Dealt(log, radiant, t, p, name) == 0
    ensures forall i, j | 0 <= i < j < |rows| ::
              rows[i].key.t < rows[j].key.t
              || (rows[i].key.t == rows[j].key.t && rows[i].key.attacker <= rows[j].key.attacker)
  {
    hide Sum, Dealt, HitsOf, Less;
    var key := ObjectiveKey(t, p, name);
    SumIsDealt(log, radiant, t, p, name);
    if key in Keys(rows) {
      var r :| r in rows && r.key == key;
      HitsHurt(log, radiant);
      HurtAddsUp(HitsOf(log, radiant), key);
    } else {
      NotHit(HitsOf(log, radiant), key);
    }
  }

  lemma {:induction false} HitsHurt(log: seq<Entry>, radiant: seq<bool>)
    ensures forall h | h in HitsOf(log, radiant) :: h.d > 0
  {
    hide ObjectiveName, Second;
    if log != [] { HitsHurt(log[..|log| - 1], radiant); }
  }

  lemma {:induction false} HurtAddsUp<K>(hits: seq<Hit<K>>, key: K)
    requires forall h | h in hits :: h.d > 0
    ensures if key in Keys(hits) then Sum(hits, key) > 0 else Sum(hits, key) == 0
  {
    if hits != [] {
      var n := |hits| - 1;
      assert hits == hits[..n] + [hits[n]];
      HurtAddsUp(hits[..n], key);
    }
  }

  lemma {:induction false} NotHit<K>(hits: seq<Hit<K>>, key: K)
    requires key !in Keys(hits)
    ensures Sum(hits, key) == 0
  {
    if hits != [] {
      var n := |hits| - 1;
      assert forall h | h in hits[..n] :: h in hits;
      assert hits[n] in hits;
      NotHit(hits[..n], key);
    }
  }

  /** The damage of one player, or of his bear, to one hero by one source in the second that begins at t. */
  ghost function DealtToHero(hits: seq<DamageHit>, t: int, attacker: int, victim: int, kind: int, bear: bool): int {
    if hits == [] then 0
    else
      var h := hits[|hits| - 1];
      DealtToHero(hits[..|hits| - 1], t, attacker, victim, kind, bear)
      + if t as real <= h.t < t as real + 1.0 && h.attacker == attacker && h.victim == victim && h.kind == kind
           && h.bear == bear then h.d else 0
  }

  lemma {:induction false} HeroSums(hits: seq<DamageHit>, t: int, attacker: int, victim: int, kind: int, bear: bool)
    ensures Sum(DamageHits(hits), DamageKey(t, attacker, victim, kind, bear)) ==
            DealtToHero(hits, t, attacker, victim, kind, bear)
  {
    hide Second, Sum;
    var key := DamageKey(t, attacker, victim, kind, bear);
    if hits == [] {
      NoHits(key);
      assert DamageHits(hits) == [];
    } else {
      var n := |hits| - 1;
      HeroSums(hits[..n], t, attacker, victim, kind, bear);
      var last := DamageHits(hits)[n];
      assert DamageHits(hits) == DamageHits(hits[..n]) + [last];
      SumJoin(DamageHits(hits[..n]), [last], key);
      OneHit(last, key);
      SameSecond(t, hits[n].t);
    }
  }

  /** The hero damage rows hold all damage second by second, by time, then victim, attacker and source, the hero before
      his bear. */
  lemma HeroRowsAreTheDamage(hits: seq<DamageHit>, rows: seq<Hit<DamageKey>>, t: int, attacker: int, victim: int,
                             kind: int, bear: bool)
    requires Aggregates(DamageHits(hits), DamageLess, rows)
    ensures var key := DamageKey(t, attacker, victim, kind, bear);
            && (forall r | r in rows && r.key == key :: r.d == DealtToHero(hits, t, attacker, victim, kind, bear))
            && ((exists r :: r in rows && r.key == key) || DealtToHero(hits, t, attacker, victim, kind, bear) == 0)
    ensures forall i, j | 0 <= i < j < |rows| :: HeroRowsInOrder(rows[i].key, rows[j].key)
  {
    hide Sum, DealtToHero, DamageHits, DamageLess, HeroRowsInOrder;
    var key := DamageKey(t, attacker, victim, kind, bear);
    HeroSums(hits, t, attacker, victim, kind, bear);
    if key in Keys(rows) {
      var r :| r in rows && r.key == key;
    } else {
      NotHit(DamageHits(hits), key);
    }
    forall i, j | 0 <= i < j < |rows| ensures HeroRowsInOrder(rows[i].key, rows[j].key) {
      LessMeans(rows[i].key, rows[j].key);
    }
  }

  ghost predicate HeroRowsInOrder(a: DamageKey, b: DamageKey) {
    && a.t <= b.t
    && (a.t == b.t ==> a.victim <= b.victim)
    && (a.t == b.t && a.victim == b.victim ==> a.attacker <= b.attacker)
    && (a.t == b.t && a.victim == b.victim && a.attacker == b.attacker ==> a.kind <= b.kind)
    && (a.t == b.t && a.victim == b.victim && a.attacker == b.attacker && a.kind == b.kind ==> !a.bear && b.bear)
  }

  lemma LessMeans(a: DamageKey, b: DamageKey)
    ensures DamageLess(a, b) <==> HeroRowsInOrder(a, b)
  {
  }
}
