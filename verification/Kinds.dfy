/** Why a replay is kept (internal/vault/kind.go). A kind is a string in the source, and any string can arrive. */
module Kinds {
  import opened Wrappers
  import opened Text

  const STUDENT := "student"
  const PRO := "pro"
  const LADDER := "ladder"
  const COACH := "coach"
  const AUDIT := "audit"
  const CAMP := "camp"
  const UNKNOWN := "unknown"

  predicate IsKind(s: string) {
    s == STUDENT || s == PRO || s == LADDER || s == COACH || s == AUDIT || s == CAMP
  }

  /** The higher class wins when one match is stored for two reasons. */
  function Class(k: string): nat {
    if k == STUDENT then 4
    else if k == AUDIT || k == CAMP then 3
    else if k == PRO || k == LADDER then 2
    else if k == COACH then 1
    else 0
  }

  /** A membership that must survive a merge into a higher kind. */
  predicate Protected(k: string) {
    Class(k) > Class(COACH)
  }

  /** An empty hint is a coach analysis; an unknown word is rejected. */
  function ParseKind(s: string): Option<string> {
    var w := Lower(Trim(s));
    if w == "" then Some(COACH)
    else if IsKind(w) then Some(w)
    else None
  }

  lemma LowerWord(k: string)
    requires k != "" && forall i | 0 <= i < |k| :: 'a' <= k[i] <= 'z'
    ensures Trim(k) == k && Lower(k) == k && ',' !in k
  {
    TrimSpec(k);
    assert Lower(k) == k;
  }

  lemma KindLetters(k: string)
    requires IsKind(k)
    ensures k != "" && forall i | 0 <= i < |k| :: 'a' <= k[i] <= 'z'
  {
    if k == STUDENT {
      assert forall i | 0 <= i < 7 :: 'a' <= STUDENT[i] <= 'z';
    } else if k == PRO {
    } else if k == LADDER {
    } else if k == COACH {
    } else if k == AUDIT {
    }
  }

  /** A kind's own name parses to itself. */
  lemma ParseOwnName(k: string)
    requires IsKind(k)
    ensures ParseKind(k) == Some(k)
    ensures Trim(k) != "" && ',' !in k
  {
    KindLetters(k);
    LowerWord(k);
  }

  /** k is the first kind of the highest class in ks. */
  ghost predicate IsHighest(ks: seq<string>, k: string) {
    if ks == [] then k == COACH
    else exists i :: 0 <= i < |ks| && ks[i] == k
                     && (forall j | 0 <= j < |ks| :: Class(ks[j]) <= Class(k))
                     && (forall j | 0 <= j < i :: Class(ks[j]) < Class(k))
  }

  lemma HighestUnique(ks: seq<string>, a: string, b: string)
    requires IsHighest(ks, a) && IsHighest(ks, b)
    ensures a == b
  {
    if ks != [] {
      var i :| 0 <= i < |ks| && ks[i] == a && forall j | 0 <= j < i :: Class(ks[j]) < Class(a);
      var j :| 0 <= j < |ks| && ks[j] == b && forall m | 0 <= m < j :: Class(ks[m]) < Class(b);
      assert Class(ks[i]) <= Class(b) && Class(ks[j]) <= Class(a);
      assert !(i < j) && !(j < i);
    }
  }

  function Best(ks: seq<string>): string {
    if |ks| <= 1 then (if ks == [] then COACH else ks[0])
    else var b := Best(ks[..|ks| - 1]); if Class(ks[|ks| - 1]) > Class(b) then ks[|ks| - 1] else b
  }

  lemma {:induction false} BestIsHighest(ks: seq<string>)
    ensures IsHighest(ks, Best(ks))
  {
    hide Class;
    if |ks| == 1 {
      assert ks[0] == Best(ks);
    } else if |ks| > 1 {
      var front := ks[..|ks| - 1];
      BestIsHighest(front);
      var i :| 0 <= i < |front| && front[i] == Best(front) && forall j | 0 <= j < i ::
          Class(front[j]) < Class(Best(front));
      assert ks[i] == Best(front);
      assert forall j | 0 <= j < |front| :: ks[j] == front[j];
      if Best(ks) == Best(front) {
        assert ks[i] == Best(ks);
      } else {
        assert ks[|ks| - 1] == Best(ks);
      }
    }
  }

  /** The first kind of the highest class; an empty list gives the kind nobody protects. */
  method HighestKind(ks: seq<string>) returns (best: string)
    ensures IsHighest(ks, best) && best == Best(ks)
  {
    best := COACH;
    for i := 0 to |ks|
      invariant best == Best(ks[..i])
    {
      assert ks[..i + 1][..i] == ks[..i];
      if i == 0 || Class(ks[i]) > Class(best) {
        best := ks[i];
      }
    }
    assert ks[..|ks|] == ks;
    BestIsHighest(ks);
  }
}
