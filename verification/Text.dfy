/** The string operations of the Go standard library that the vault's metadata relies on. */
module Text {

  predicate IsDigit(c: char) {
    '0' <= c <= '9'
  }

  /** unicode.IsSpace. */
  predicate IsSpace(c: char) {
    || '\t' <= c <= '\r' || c == ' ' || c == '\U{85}' || c == '\U{A0}' || c == '\U{1680}'
    || '\U{2000}' <= c <= '\U{200A}' || c == '\U{2028}' || c == '\U{2029}' || c == '\U{202F}'
    || c == '\U{205F}' || c == '\U{3000}'
  }

  function TrimLeft(s: string): string {
    if s != "" && IsSpace(s[0]) then TrimLeft(s[1..]) else s
  }

  function TrimRight(s: string): string {
    if s != "" && IsSpace(s[|s| - 1]) then TrimRight(s[..|s| - 1]) else s
  }

  /** strings.TrimSpace. */
  function Trim(s: string): string {
    TrimRight(TrimLeft(s))
  }

  /** No space at either end. */
  predicate Trimmed(s: string) {
    s == "" || (!IsSpace(s[0]) && !IsSpace(s[|s| - 1]))
  }

  lemma {:induction false} TrimRightKeepsHead(s: string)
    requires s != "" ==> !IsSpace(s[0])
    ensures Trimmed(TrimRight(s))
  {
    if s != "" && IsSpace(s[|s| - 1]) {
      TrimRightKeepsHead(s[..|s| - 1]);
    }
  }

  lemma {:induction false} TrimLeftHead(s: string)
    ensures var r := TrimLeft(s); r != "" ==> !IsSpace(r[0])
  {
    if s != "" && IsSpace(s[0]) {
      TrimLeftHead(s[1..]);
    }
  }

  /** TrimSpace leaves no space at an end and is the identity on strings that have none. */
  lemma TrimSpec(s: string)
    ensures Trimmed(Trim(s))
    ensures Trimmed(s) ==> Trim(s) == s
  {
    TrimLeftHead(s);
    TrimRightKeepsHead(TrimLeft(s));
  }

  predicate DigitsOnly(s: string) {
    s != "" && forall i | 0 <= i < |s| :: IsDigit(s[i])
  }

  /** unicode.ToLower, as far as it can yield an ASCII letter. */
  function LowerChar(c: char): char {
    if 'A' <= c <= 'Z' then c - 'A' + 'a'
    else if c == '\U{212A}' then 'k'
    else if c == '\U{130}' then 'i'
    else c
  }

  function Lower(s: string): (r: string)
    ensures |r| == |s| && forall i | 0 <= i < |s| :: r[i] == LowerChar(s[i])
  {
    seq(|s|, i requires 0 <= i < |s| => LowerChar(s[i]))
  }

  /** Go's string order. */
  predicate Less(a: string, b: string) {
    if b == "" then false
    else if a == "" then true
    else if a[0] != b[0] then a[0] < b[0]
    else Less(a[1..], b[1..])
  }

  lemma {:induction false} LessTransitive(a: string, b: string, c: string)
    requires Less(a, b) && Less(b, c)
    ensures Less(a, c)
  {
    if a != "" && a[0] == b[0] && b[0] == c[0] {
      LessTransitive(a[1..], b[1..], c[1..]);
    }
  }

  lemma {:induction false} LessTotal(a: string, b: string)
    ensures !Less(a, a)
    ensures a == b || Less(a, b) || Less(b, a)
    ensures !(Less(a, b) && Less(b, a))
  {
    if a != "" {
      LessTotal(a[1..], a[1..]);
    }
    if a != "" && b != "" && a[0] == b[0] {
      LessTotal(a[1..], b[1..]);
      assert a == [a[0]] + a[1..] && b == [b[0]] + b[1..];
    }
  }

  /** Sorted in strictly ascending order: the form every list the vault writes has. */
  predicate Ascending(xs: seq<string>) {
    forall i, j | 0 <= i < j < |xs| :: Less(xs[i], xs[j])
  }

  function Elems(xs: seq<string>): set<string> {
    set x | x in xs
  }

  function Insert(x: string, xs: seq<string>): seq<string> {
    if xs == [] || Less(x, xs[0]) then [x] + xs
    else if x == xs[0] then xs
    else [xs[0]] + Insert(x, xs[1..])
  }

  lemma {:induction false} InsertSpec(x: string, xs: seq<string>)
    requires Ascending(xs)
    ensures Ascending(Insert(x, xs))
    ensures Elems(Insert(x, xs)) == Elems(xs) + {x}
  {
    var r := Insert(x, xs);
    if xs == [] {
    } else if Less(x, xs[0]) {
      forall j | 0 <= j < |xs| ensures Less(x, xs[j]) {
        if j > 0 { LessTransitive(x, xs[0], xs[j]); }
      }
    } else if x != xs[0] {
      InsertSpec(x, xs[1..]);
      LessTotal(x, xs[0]);
      var tail := Insert(x, xs[1..]);
      forall j | 0 <= j < |tail| ensures Less(xs[0], tail[j]) {
        assert tail[j] in Elems(tail);
      }
      assert xs == [xs[0]] + xs[1..];
      assert Elems(xs) == {xs[0]} + Elems(xs[1..]);
      assert Elems(r) == {xs[0]} + Elems(tail);
    }
  }

  /** The elements of xs once each, in ascending order (sort.Strings on a list without repeats). */
  function SortedOf(xs: seq<string>): seq<string> {
    if xs == [] then [] else Insert(xs[0], SortedOf(xs[1..]))
  }

  lemma {:induction false} SortedOfSpec(xs: seq<string>)
    ensures Ascending(SortedOf(xs)) && Elems(SortedOf(xs)) == Elems(xs)
  {
    if xs != [] {
      SortedOfSpec(xs[1..]);
      InsertSpec(xs[0], SortedOf(xs[1..]));
      assert xs == [xs[0]] + xs[1..];
    }
  }

  /** An ascending list is determined by its elements. */
  lemma {:induction false} AscendingUnique(a: seq<string>, b: seq<string>)
    requires Ascending(a) && Ascending(b) && Elems(a) == Elems(b)
    ensures a == b
  {
    assert a != [] ==> a[0] in Elems(a);
    assert b != [] ==> b[0] in Elems(b);
    if a != [] && b != [] {
      LessTotal(a[0], b[0]);
      assert a[0] == b[0];
      forall x ensures x in Elems(a[1..]) <==> x in Elems(b[1..]) {
        TailElems(a, x);
        TailElems(b, x);
      }
      AscendingUnique(a[1..], b[1..]);
      assert a == [a[0]] + a[1..] && b == [b[0]] + b[1..];
    }
  }

  lemma TailElems(a: seq<string>, x: string)
    requires Ascending(a) && a != []
    ensures x in Elems(a[1..]) <==> x in Elems(a) && x != a[0]
  {
    LessTotal(a[0], a[0]);
    assert a == [a[0]] + a[1..];
  }

  lemma SortedOfAscending(xs: seq<string>)
    requires Ascending(xs)
    ensures SortedOf(xs) == xs
  {
    SortedOfSpec(xs);
    AscendingUnique(SortedOf(xs), xs);
  }

  /** strings.Join. */
  function Join(parts: seq<string>, sep: char): string {
    if parts == [] then ""
    else if |parts| == 1 then parts[0]
    else parts[0] + [sep] + Join(parts[1..], sep)
  }

  /** strings.Split by one character. */
  function Split(s: string, sep: char): (r: seq<string>)
    ensures r != []
  {
    if s == "" then [""]
    else if s[0] == sep then [""] + Split(s[1..], sep)
    else var r := Split(s[1..], sep); [[s[0]] + r[0]] + r[1..]
  }

  lemma {:induction false} SplitWord(p: string, rest: string, sep: char)
    requires sep !in p
    ensures Split(p + rest, sep) == [p + Split(rest, sep)[0]] + Split(rest, sep)[1..]
  {
    if p == "" {
      assert p + rest == rest;
      assert p + Split(rest, sep)[0] == Split(rest, sep)[0];
    } else {
      SplitWord(p[1..], rest, sep);
      assert (p + rest)[1..] == p[1..] + rest;
      assert [p[0]] + (p[1..] + Split(rest, sep)[0]) == p + Split(rest, sep)[0];
    }
  }

  /** Splitting undoes joining, for any number of parts that do not hold the separator. */
  lemma {:induction false} SplitJoin(parts: seq<string>, sep: char)
    requires parts != [] && forall p | p in parts :: sep !in p
    ensures Split(Join(parts, sep), sep) == parts
  {
    var p := parts[0];
    assert p in parts;
    if |parts| == 1 {
      SplitWord(p, "", sep);
      assert p + "" == p;
    } else {
      var rest := [sep] + Join(parts[1..], sep);
      assert forall q | q in parts[1..] :: q in parts;
      SplitJoin(parts[1..], sep);
      SplitWord(p, rest, sep);
      assert rest[1..] == Join(parts[1..], sep);
      assert Join(parts, sep) == p + rest;
      assert p + "" == p && parts == [p] + parts[1..];
    }
  }

  /** Separators of an account list. */
  predicate IsListSep(c: char) {
    c == ',' || c == ';' || c == '|' || c == ' '
  }

  /** strings.FieldsFunc with the account separators: cur is the field being read. */
  function Fields(s: string, cur: string := ""): seq<string> {
    if s == "" then (if cur == "" then [] else [cur])
    else if IsListSep(s[0]) then (if cur == "" then [] else [cur]) + Fields(s[1..], "")
    else Fields(s[1..], cur + [s[0]])
  }

  /** A string that FieldsFunc reads as one field. */
  predicate IsField(p: string) {
    p != "" && forall i | 0 <= i < |p| :: !IsListSep(p[i])
  }

  lemma {:induction false} FieldsWord(p: string, rest: string, cur: string)
    requires p == "" || IsField(p)
    ensures Fields(p + rest, cur) == Fields(rest, cur + p)
  {
    if p == "" {
      assert p + rest == rest && cur + p == cur;
    } else {
      assert (p + rest)[1..] == p[1..] + rest;
      FieldsWord(p[1..], rest, cur + [p[0]]);
      assert cur + [p[0]] + p[1..] == cur + p;
    }
  }

  /** Reading a comma-joined list back gives the list, however long. */
  lemma {:induction false} FieldsJoin(parts: seq<string>)
    requires forall p | p in parts :: IsField(p)
    ensures Fields(Join(parts, ',')) == parts
  {
    if parts != [] {
      var p := parts[0];
      assert p in parts;
      assert "" + p == p;
      if |parts| == 1 {
        FieldsWord(p, "", "");
        assert p + "" == p;
      } else {
        var rest := [','] + Join(parts[1..], ',');
        assert forall q | q in parts[1..] :: q in parts;
        FieldsJoin(parts[1..]);
        FieldsWord(p, rest, "");
        assert rest[1..] == Join(parts[1..], ',');
        assert Join(parts, ',') == p + rest;
      }
    }
  }
}
