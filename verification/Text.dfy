/** The string helpers of the Go standard library that the modelled code leans on:
    trimming, ordering, splitting and the sorted set that `normalizeStringSet` builds. */
module Text {

  datatype Option<+T> = None | Some(value: T)

  datatype Result<+T, +E> = Ok(value: T) | Err(error: E)

  /** White space as `unicode.IsSpace` defines it. */
  predicate IsSpace(c: char) {
    var n := c as int;
    || 9 <= n <= 13 || n == 0x20 || n == 0x85 || n == 0xA0 || n == 0x1680
    || 0x2000 <= n <= 0x200A || n == 0x2028 || n == 0x2029 || n == 0x202F || n == 0x205F || n == 0x3000
  }

  function TrimLeft(s: string): string {
    if s != "" && IsSpace(s[0]) then TrimLeft(s[1..]) else s
  }

  function TrimRight(s: string): string {
    if s != "" && IsSpace(s[|s| - 1]) then TrimRight(s[..|s| - 1]) else s
  }

  /** `strings.TrimSpace`. */
  function Trim(s: string): string {
    TrimRight(TrimLeft(s))
  }

  predicate Trimmed(s: string) {
    s == "" || (!IsSpace(s[0]) && !IsSpace(s[|s| - 1]))
  }

  lemma {:induction false} TrimRightKeepsFront(s: string)
    ensures TrimRight(s) <= s
    ensures TrimRight(s) == "" || !IsSpace(TrimRight(s)[|TrimRight(s)| - 1])
  {
    if s != "" && IsSpace(s[|s| - 1]) {
      TrimRightKeepsFront(s[..|s| - 1]);
    }
  }

  lemma {:induction false} TrimLeftStartsSolid(s: string)
    ensures TrimLeft(s) == "" || !IsSpace(TrimLeft(s)[0])
    ensures forall c :: c in TrimLeft(s) ==> c in s
  {
    if s != "" && IsSpace(s[0]) {
      TrimLeftStartsSolid(s[1..]);
    }
  }

  /** Trimming yields a trimmed string made of the input's characters, and fixes every trimmed string. */
  lemma TrimIsTrimmed(s: string)
    ensures Trimmed(Trim(s))
    ensures Trim(Trim(s)) == Trim(s)
    ensures Trimmed(s) ==> Trim(s) == s
    ensures forall c :: c in Trim(s) ==> c in s
  {
    TrimLeftStartsSolid(s);
    TrimRightKeepsFront(TrimLeft(s));
    assert forall c :: c in Trim(s) ==> c in TrimLeft(s);
  }

  /** Case folding against a lower-case ASCII literal, as `strings.EqualFold` does it: besides the
      ASCII letters, the long s folds to 's' and the Kelvin sign to 'k'. */
  function FoldChar(c: char): char {
    if 'A' <= c <= 'Z' then (c as int + 32) as char
    else if c as int == 0x17F then 's'
    else if c as int == 0x212A then 'k'
    else c
  }

  predicate EqualFold(s: string, lower: string) {
    |s| == |lower| && forall i :: 0 <= i < |s| ==> FoldChar(s[i]) == lower[i]
  }

  /** `strings.ToUpper` as far as ASCII results go: the ASCII letters, and the two other letters whose
      upper case is ASCII (dotless i, long s). */
  function UpperChar(c: char): char {
    if 'a' <= c <= 'z' then (c as int - 32) as char
    else if c as int == 0x131 then 'I'
    else if c as int == 0x17F then 'S'
    else c
  }

  function Upper(s: string): (r: string)
    ensures |r| == |s|
    ensures forall i :: 0 <= i < |s| ==> r[i] == UpperChar(s[i])
  {
    seq(|s|, i requires 0 <= i < |s| => UpperChar(s[i]))
  }

  lemma UpperIdempotent(s: string)
    ensures Upper(Upper(s)) == Upper(s)
    ensures Trimmed(s) ==> Trimmed(Upper(s))
  {
    assert forall c :: UpperChar(UpperChar(c)) == UpperChar(c);
    assert forall c :: IsSpace(UpperChar(c)) == IsSpace(c);
  }

  /** The byte order of `sort.Strings`; on UTF-8 it is the order of code points. */
  predicate Less(a: string, b: string) {
    b != "" && (a == "" || a[0] < b[0] || (a[0] == b[0] && Less(a[1..], b[1..])))
  }

  lemma {:induction false} LessAsymmetric(a: string, b: string)
    ensures !(Less(a, b) && Less(b, a))
    ensures !Less(a, a)
  {
    if a != "" && b != "" { LessAsymmetric(a[1..], b[1..]); }
    if a != "" && b == "" { LessAsymmetric(a[1..], b); }
  }

  lemma {:induction false} LessTotal(a: string, b: string)
    ensures a == b || Less(a, b) || Less(b, a)
  {
    if a != "" && b != "" && a[0] == b[0] {
      LessTotal(a[1..], b[1..]);
      assert a == [a[0]] + a[1..] && b == [b[0]] + b[1..];
    }
  }

  lemma {:induction false} LessTransitive(a: string, b: string, c: string)
    requires Less(a, b) && Less(b, c)
    ensures Less(a, c)
  {
    if a != "" && a[0] == b[0] == c[0] { LessTransitive(a[1..], b[1..], c[1..]); }
  }

  predicate IsLeast(m: string, s: set<string>) {
    m in s && forall x :: x in s ==> x == m || Less(m, x)
  }

  lemma {:induction false} LeastExists(s: set<string>)
    requires s != {}
    ensures exists m :: IsLeast(m, s)
  {
    var x :| x in s;
    if s == {x} {
      assert IsLeast(x, s);
    } else {
      LeastExists(s - {x});
      var m :| IsLeast(m, s - {x});
      LessTotal(x, m);
      if Less(x, m) {
        forall y | y in s ensures y == x || Less(x, y) {
          if y != x && y != m { LessTransitive(x, m, y); }
        }
        assert IsLeast(x, s);
      } else {
        assert IsLeast(m, s);
      }
    }
  }

  lemma LeastUnique(a: string, b: string, s: set<string>)
    requires IsLeast(a, s) && IsLeast(b, s)
    ensures a == b
  {
    LessAsymmetric(a, b);
  }

  function Least(s: set<string>): (m: string)
    requires s != {}
    ensures IsLeast(m, s)
  {
    LeastExists(s);
    assert forall a, b :: IsLeast(a, s) && IsLeast(b, s) ==> a == b by {
      forall a, b | IsLeast(a, s) && IsLeast(b, s) ensures a == b { LeastUnique(a, b, s); }
    }
    var m :| m in s && IsLeast(m, s);
    m
  }

  predicate StrictlyAscending(r: seq<string>) {
    forall i, j :: 0 <= i < j < |r| ==> Less(r[i], r[j])
  }

  /** The members of a set in ascending order. */
  function Ascending(s: set<string>): (r: seq<string>)
    ensures StrictlyAscending(r)
    ensures forall x :: x in r <==> x in s
    ensures |r| == |s|
  {
    if s == {} then [] else
      var m := Least(s);
      var rest := Ascending(s - {m});
      [m] + rest
  }

  lemma TailMembers(a: seq<string>, x: string)
    requires StrictlyAscending(a) && a != []
    ensures x in a[1..] <==> x in a && x != a[0]
  {
    LessAsymmetric(x, x);
    if x in a[1..] {
      var i :| 0 <= i < |a[1..]| && a[1..][i] == x;
      assert Less(a[0], a[i + 1]);
    }
  }

  /** A strictly ascending sequence is determined by its members. */
  lemma {:induction false} AscendingUnique(a: seq<string>, b: seq<string>)
    requires StrictlyAscending(a) && StrictlyAscending(b)
    requires forall x :: x in a <==> x in b
    ensures a == b
  {
    assert a != [] ==> a[0] in b;
    assert b != [] ==> b[0] in a;
    if a != [] {
      LessAsymmetric(a[0], b[0]);
      assert a[0] == b[0];
      forall x ensures x in a[1..] <==> x in b[1..] {
        TailMembers(a, x);
        TailMembers(b, x);
      }
      AscendingUnique(a[1..], b[1..]);
    }
  }

  predicate Sorted(r: seq<string>) {
    forall i, j :: 0 <= i < j < |r| ==> r[i] == r[j] || Less(r[i], r[j])
  }

  function Insert(x: string, s: seq<string>): seq<string> {
    if s == [] then [x] else if x == s[0] || Less(x, s[0]) then [x] + s else [s[0]] + Insert(x, s[1..])
  }

  lemma {:induction false} InsertCounts(x: string, s: seq<string>)
    ensures multiset(Insert(x, s)) == multiset(s) + multiset{x}
  {
    if s != [] {
      assert s == [s[0]] + s[1..];
      InsertCounts(x, s[1..]);
    }
  }

  lemma SortedCons(h: string, s: seq<string>)
    requires Sorted(s) && forall y :: y in s ==> y == h || Less(h, y)
    ensures Sorted([h] + s)
  {
    forall i, j | 0 <= i < j < |[h] + s| ensures ([h] + s)[i] == ([h] + s)[j] || Less(([h] + s)[i], ([h] + s)[j]) {
      assert ([h] + s)[j] == s[j - 1];
    }
  }

  lemma {:induction false} InsertSorts(x: string, s: seq<string>)
    requires Sorted(s)
    ensures Sorted(Insert(x, s))
  {
    if s == [] {
    } else if x == s[0] || Less(x, s[0]) {
      forall y | y in s ensures y == x || Less(x, y) {
        var j :| 0 <= j < |s| && s[j] == y;
        if x != s[0] && j > 0 && s[0] != s[j] { LessTransitive(x, s[0], y); }
      }
      SortedCons(x, s);
    } else {
      LessTotal(x, s[0]);
      InsertSorts(x, s[1..]);
      InsertCounts(x, s[1..]);
      forall y | y in Insert(x, s[1..]) ensures y == s[0] || Less(s[0], y) {
        assert y in multiset(Insert(x, s[1..]));
        if y in s[1..] {
          var j :| 0 <= j < |s[1..]| && s[1..][j] == y;
          assert s[j + 1] == y;
        }
      }
      SortedCons(s[0], Insert(x, s[1..]));
    }
  }

  /** `sort.Strings`. */
  function SortStrings(s: seq<string>): (r: seq<string>) {
    if s == [] then [] else Insert(s[0], SortStrings(s[1..]))
  }

  lemma {:induction false} SortStringsSorts(s: seq<string>)
    ensures Sorted(SortStrings(s)) && multiset(SortStrings(s)) == multiset(s)
  {
    if s != [] {
      assert s == [s[0]] + s[1..];
      SortStringsSorts(s[1..]);
      InsertSorts(s[0], SortStrings(s[1..]));
      InsertCounts(s[0], SortStrings(s[1..]));
    }
  }

  lemma SameHead(a: seq<string>, b: seq<string>)
    requires Sorted(a) && Sorted(b) && multiset(a) == multiset(b) && a != []
    ensures b != [] && a[0] == b[0]
  {
    assert a[0] in multiset(b);
    assert b[0] in multiset(a);
    LessAsymmetric(a[0], b[0]);
  }

  lemma SameTail(a: seq<string>, b: seq<string>)
    requires a != [] && b != [] && a[0] == b[0] && multiset(a) == multiset(b)
    ensures multiset(a[1..]) == multiset(b[1..])
  {
    assert a == [a[0]] + a[1..] && b == [b[0]] + b[1..];
    assert multiset(a[1..]) == multiset(a) - multiset{a[0]};
  }

  lemma {:induction false} SortedUnique(a: seq<string>, b: seq<string>)
    requires Sorted(a) && Sorted(b) && multiset(a) == multiset(b)
    ensures a == b
  {
    if a == [] {
      assert |b| == |multiset(b)| == 0;
    } else {
      SameHead(a, b);
      SameTail(a, b);
      SortedUnique(a[1..], b[1..]);
    }
  }

  /** Sorting a duplicate-free list gives the ascending listing of its members. */
  lemma SortOfDistinct(s: seq<string>)
    requires Distinct(s)
    ensures SortStrings(s) == Ascending(set x | x in s)
  {
    var r := SortStrings(s);
    SortStringsSorts(s);
    assert StrictlyAscending(r) by {
      forall i, j | 0 <= i < j < |r| ensures Less(r[i], r[j]) {
        if r[i] == r[j] {
          CountedTwice(r, i, j);
          DistinctOnce(s, r[i]);
        }
      }
    }
    forall x ensures x in r <==> x in s { assert x in multiset(r) <==> x in multiset(s); }
    AscendingUnique(r, Ascending(set x | x in s));
  }

  predicate Distinct(s: seq<string>) {
    forall i, j :: 0 <= i < j < |s| ==> s[i] != s[j]
  }

  lemma CountedTwice(r: seq<string>, i: nat, j: nat)
    requires i < j < |r| && r[i] == r[j]
    ensures multiset(r)[r[i]] >= 2
  {
    assert r == r[..j] + r[j..];
    assert r[i] == r[..j][i] && r[j] == r[j..][0];
    assert r[i] in multiset(r[..j]) && r[i] in multiset(r[j..]);
  }

  lemma {:induction false} DistinctOnce(s: seq<string>, x: string)
    requires Distinct(s)
    ensures multiset(s)[x] <= 1
  {
    if s != [] {
      assert s == [s[0]] + s[1..];
      DistinctOnce(s[1..], x);
      if x == s[0] { assert x !in s[1..]; }
    }
  }

  // ---- normalizeStringSet, strings.Split / strings.Join on commas, csvSet -------------------------

  /** The distinct, trimmed, non-empty values. */
  function CleanSet(values: seq<string>): set<string> {
    set v | v in values && Trim(v) != "" :: Trim(v)
  }

  /** What `normalizeStringSet` returns: the clean set, listed in ascending order. */
  function NormalizedSet(values: seq<string>): seq<string> {
    Ascending(CleanSet(values))
  }

  /** `normalizeStringSet` as the source runs it: trim, skip blanks and repeats, then sort. */
  method NormalizeStringSet(values: seq<string>) returns (result: seq<string>)
    ensures result == NormalizedSet(values)
  {
    var seen: set<string> := {};
    result := [];
    for i := 0 to |values|
      invariant seen == CleanSet(values[..i])
      invariant forall x :: x in result <==> x in seen
      invariant Distinct(result)
    {
      assert values[..i + 1] == values[..i] + [values[i]];
      var value := Trim(values[i]);
      if value == "" { continue; }
      if value in seen { continue; }
      seen := seen + {value};
      result := result + [value];
    }
    assert values[..|values|] == values;
    assert (set x | x in result) == seen;
    hide CleanSet, Trim, IsSpace;
    SortOfDistinct(result);
    result := SortStrings(result);
  }

  /** A list that normalization leaves alone: trimmed, non-blank, strictly ascending. */
  predicate CleanList(values: seq<string>) {
    StrictlyAscending(values) && forall v :: v in values ==> v != "" && Trimmed(v)
  }

  lemma NormalizedSetIsClean(values: seq<string>)
    ensures CleanList(NormalizedSet(values))
    ensures NormalizedSet(NormalizedSet(values)) == NormalizedSet(values)
  {
    forall v | v in NormalizedSet(values) ensures v != "" && Trimmed(v) {
      var w :| w in values && Trim(w) == v && v != "";
      TrimIsTrimmed(w);
    }
    CleanListNormalizes(NormalizedSet(values));
  }

  lemma CleanListNormalizes(values: seq<string>)
    requires CleanList(values)
    ensures CleanSet(values) == set v | v in values
    ensures NormalizedSet(values) == values
  {
    forall v | v in values ensures Trim(v) == v { TrimIsTrimmed(v); }
    assert CleanSet(values) == set v | v in values by {
      forall v | v in values ensures v in CleanSet(values) { assert Trim(v) == v; }
    }
    AscendingUnique(NormalizedSet(values), values);
  }

  predicate CommaFree(s: string) {
    ',' !in s
  }

  /** `strings.Split(s, ",")`. */
  function Split(s: string): (r: seq<string>)
    ensures |r| >= 1
  {
    if s == "" then [""] else
      var r := Split(s[1..]);
      if s[0] == ',' then [""] + r else [[s[0]] + r[0]] + r[1..]
  }

  /** `strings.Join(parts, ",")`. */
  function Join(parts: seq<string>): string {
    if |parts| == 0 then "" else if |parts| == 1 then parts[0] else parts[0] + "," + Join(parts[1..])
  }

  lemma {:induction false} SplitPieces(s: string)
    ensures forall p :: p in Split(s) ==> CommaFree(p)
  {
    if s != "" {
      SplitPieces(s[1..]);
      var r := Split(s[1..]);
      assert r[0] in r;
      assert forall p :: p in r[1..] ==> p in r;
    }
  }

  lemma {:induction false} SplitAfter(p: string, rest: string)
    requires CommaFree(p)
    ensures Split(p + "," + rest) == [p] + Split(rest)
    ensures Split(p) == [p]
  {
    if p == "" {
      assert p + "," + rest == "," + rest;
      assert ("," + rest)[1..] == rest;
    } else {
      assert p[0] in p && forall c :: c in p[1..] ==> c in p;
      SplitAfter(p[1..], rest);
      assert (p + "," + rest)[1..] == p[1..] + "," + rest;
      assert p == [p[0]] + p[1..];
    }
  }

  lemma {:induction false} SplitJoin(parts: seq<string>)
    requires parts != [] && forall p :: p in parts ==> CommaFree(p)
    ensures Split(Join(parts)) == parts
  {
    if |parts| == 1 {
      SplitAfter(parts[0], "");
    } else {
      SplitJoin(parts[1..]);
      SplitAfter(parts[0], Join(parts[1..]));
    }
  }

  /** `csvSet`. */
  function CsvSet(value: string): set<string> {
    CleanSet(Split(value))
  }

  /** `csvSet` undoes the comma join of a normalized list exactly when no name holds a comma. */
  lemma CsvRoundTrip(names: seq<string>)
    requires CleanList(names)
    ensures CsvSet(Join(names)) == (set n | n in names) <==> forall n :: n in names ==> CommaFree(n)
  {
    if forall n :: n in names ==> CommaFree(n) {
      if names == [] {
        assert CsvSet("") == {};
      } else {
        SplitJoin(names);
        CleanListNormalizes(names);
      }
    } else {
      var n :| n in names && !CommaFree(n);
      if n in CsvSet(Join(names)) {
        var p :| p in Split(Join(names)) && Trim(p) == n;
        SplitPieces(Join(names));
        TrimIsTrimmed(p);
      }
    }
  }
}
