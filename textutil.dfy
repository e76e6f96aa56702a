/**
 * The handful of string operations of Qt's QString and QChar that the editor and the
 * project code rely on: indexOf, isSpace, trimmed, replace, join, and the ordering
 * QMap uses for its string keys.  Strings are sequences of characters.
 */
module TextUtil {

  /** QChar::isSpace: the ASCII controls 9..13, the space, and the Unicode separators. */
  predicate IsSpace(c: char) {
    var n := c as int;
    n == 0x20 || (0x09 <= n <= 0x0D) || n == 0x85 || n == 0xA0 || n == 0x1680
    || (0x2000 <= n <= 0x200A) || n == 0x2028 || n == 0x2029 || n == 0x202F
    || n == 0x205F || n == 0x3000
  }

  /** The Unicode paragraph separator that QTextDocument puts between blocks. */
  const ParagraphSeparator: char := 0x2029 as char

  /** `pat` occurs in `s` starting at index `i`. */
  predicate OccursAt(s: string, pat: string, i: int) {
    0 <= i && i + |pat| <= |s| && s[i..i + |pat|] == pat
  }

  /** The first occurrence of `pat` in `s` at or after `from`, or -1. */
  function IndexFrom(s: string, pat: string, from: nat): (r: int)
    requires from <= |s|
    ensures r == -1 || (from <= r <= |s| && OccursAt(s, pat, r))
    ensures forall j :: from <= j <= |s| && (r == -1 || j < r) ==> !OccursAt(s, pat, j)
    decreases |s| - from
  {
    if OccursAt(s, pat, from) then from
    else if from == |s| then -1
    else IndexFrom(s, pat, from + 1)
  }

  /** QString::indexOf(pat): the first index at which `pat` occurs, or -1. */
  function IndexOf(s: string, pat: string): (r: int)
    ensures r == -1 || (0 <= r <= |s| && OccursAt(s, pat, r))
    ensures forall j :: 0 <= j <= |s| && (r == -1 || j < r) ==> !OccursAt(s, pat, j)
  {
    IndexFrom(s, pat, 0)
  }

  /** A string made only of white space (QString::trimmed().isEmpty()). */
  predicate IsBlank(s: string) {
    forall i :: 0 <= i < |s| ==> IsSpace(s[i])
  }

  /** The number of white-space characters `s` starts with. */
  function LeadingSpaces(s: string): (n: int)
    ensures 0 <= n <= |s|
    ensures forall i :: 0 <= i < n ==> IsSpace(s[i])
    ensures n < |s| ==> !IsSpace(s[n])
  {
    if s == [] || !IsSpace(s[0]) then 0 else 1 + LeadingSpaces(s[1..])
  }

  /** The length of `s` without the white space it ends with. */
  function TrailingStart(s: string): (n: int)
    ensures 0 <= n <= |s|
    ensures forall i :: n <= i < |s| ==> IsSpace(s[i])
    ensures 0 < n ==> !IsSpace(s[n - 1])
  {
    if s == [] || !IsSpace(s[|s| - 1]) then |s| else TrailingStart(s[..|s| - 1])
  }

  /** Drops leading white space. */
  function TrimStart(s: string): (r: string)
    ensures |r| <= |s| && r == s[|s| - |r|..]
    ensures r == [] || !IsSpace(r[0])
    ensures forall i :: 0 <= i < |s| - |r| ==> IsSpace(s[i])
  {
    s[LeadingSpaces(s)..]
  }

  /** Drops trailing white space. */
  function TrimEnd(s: string): (r: string)
    ensures |r| <= |s| && r == s[..|r|]
    ensures r == [] || !IsSpace(r[|r| - 1])
    ensures forall i :: |r| <= i < |s| ==> IsSpace(s[i])
  {
    s[..TrailingStart(s)]
  }

  /** QString::trimmed: white space removed from both ends. */
  function Trimmed(s: string): string {
    TrimEnd(TrimStart(s))
  }

  /** A string trims to nothing exactly when it is made only of white space. */
  lemma TrimmedEmptyIffBlank(s: string)
    ensures Trimmed(s) == [] <==> IsBlank(s)
  {
    var t := TrimStart(s);
    if Trimmed(s) == [] {
      assert IsBlank(t);
    } else {
      var r := Trimmed(s);
      assert !IsSpace(r[0]);
      assert r[0] == t[0] == s[|s| - |t|];
    }
  }

  /** Trimming a trimmed string changes nothing. */
  lemma TrimmedIdempotent(s: string)
    ensures Trimmed(Trimmed(s)) == Trimmed(s)
  {
    var t := TrimStart(s);
    var r := Trimmed(s);
    if r != [] {
      assert r[0] == t[0];
      assert TrimStart(r) == r;
      assert TrimEnd(r) == r;
    }
  }

  /** QString::replace(" ", ""): every space character removed, every other character kept in order. */
  function RemoveSpaces(s: string): (r: string)
    ensures |r| <= |s|
    ensures forall i :: 0 <= i < |r| ==> r[i] != ' '
    ensures (forall i :: 0 <= i < |s| ==> s[i] != ' ') ==> r == s
  {
    if s == [] then []
    else if s[0] == ' ' then RemoveSpaces(s[1..])
    else [s[0]] + RemoveSpaces(s[1..])
  }

  /** Exactly the spaces go: every other character stays as often as it occurs. */
  lemma {:induction false} RemoveSpacesCounts(s: string)
    ensures multiset(RemoveSpaces(s)) == multiset(s)[' ' := 0]
  {
    if s != [] {
      assert s == [s[0]] + s[1..];
      RemoveSpacesCounts(s[1..]);
    }
  }

  /**
   * Removing the spaces of a concatenation removes them from each part: together with
   * the one-character cases this says the other characters keep their order.
   */
  lemma {:induction false} RemoveSpacesAppend(a: string, b: string)
    ensures RemoveSpaces(a + b) == RemoveSpaces(a) + RemoveSpaces(b)
    decreases |a|
  {
    if a != [] {
      assert (a + b)[1..] == a[1..] + b;
      RemoveSpacesAppend(a[1..], b);
    } else {
      assert a + b == b;
    }
  }

  /** `after` inserted before every character and at the end: Qt's replace with an empty `before`. */
  function InsertEverywhere(s: string, after: string): (r: string)
    ensures |r| == |s| + (|s| + 1) * |after|
  {
    if s == [] then after else after + [s[0]] + InsertEverywhere(s[1..], after)
  }

  /** Position `i * width + j`: slot `j` of the `i`-th piece of a text cut into pieces of `width` characters. */
  function Slot(i: int, j: int, width: int): int {
    i * width + j
  }

  /**
   * The text with `after` inserted everywhere is cut into pieces of `|after| + 1`
   * characters: the `i`-th piece is `after` followed by the `i`-th character, and after
   * the last piece comes `after`.
   */
  lemma {:induction false} InsertEverywhereAt(s: string, after: string)
    ensures var r := InsertEverywhere(s, after); var w := |after| + 1;
      forall i, j :: 0 <= i <= |s| && 0 <= j < |after| ==> 0 <= Slot(i, j, w) < |r| && r[Slot(i, j, w)] == after[j]
    ensures var r := InsertEverywhere(s, after); var w := |after| + 1;
      forall i :: 0 <= i < |s| ==> 0 <= Slot(i, |after|, w) < |r| && r[Slot(i, |after|, w)] == s[i]
    decreases |s|
  {
    var r := InsertEverywhere(s, after);
    var w := |after| + 1;
    if s != [] {
      var t := InsertEverywhere(s[1..], after);
      InsertEverywhereAt(s[1..], after);
      assert r == after + [s[0]] + t;
      forall i, j | 0 <= i <= |s| && 0 <= j < |after|
        ensures 0 <= Slot(i, j, w) < |r| && r[Slot(i, j, w)] == after[j]
      {
        if i > 0 {
          assert Slot(i, j, w) == Slot(i - 1, j, w) + w;
        }
      }
      forall i | 0 <= i < |s|
        ensures 0 <= Slot(i, |after|, w) < |r| && r[Slot(i, |after|, w)] == s[i]
      {
        if i > 0 {
          assert Slot(i, |after|, w) == Slot(i - 1, |after|, w) + w;
          assert s[i] == s[1..][i - 1];
        }
      }
    }
  }

  /**
   * QString::replace(before, after): every occurrence of `before`, found left to right
   * without overlap, replaced by `after`.
   */
  function ReplaceAll(s: string, before: string, after: string): string
    decreases |s|
  {
    if before == [] then InsertEverywhere(s, after)
    else if |s| < |before| then s
    else if s[..|before|] == before then after + ReplaceAll(s[|before|..], before, after)
    else [s[0]] + ReplaceAll(s[1..], before, after)
  }

  /** Replacing a string that does not occur leaves the text as it is. */
  lemma {:induction false} ReplaceAllAbsent(s: string, before: string, after: string)
    requires before != []
    requires forall j :: 0 <= j <= |s| ==> !OccursAt(s, before, j)
    ensures ReplaceAll(s, before, after) == s
  {
    if |s| >= |before| {
      assert !OccursAt(s, before, 0);
      assert s[..|before|] != before;
      forall j | 0 <= j <= |s[1..]| ensures !OccursAt(s[1..], before, j) {
        assert !OccursAt(s, before, j + 1);
      }
      ReplaceAllAbsent(s[1..], before, after);
    }
  }

  /** A text that is exactly `before` becomes exactly `after`. */
  lemma ReplaceAllWhole(before: string, after: string)
    requires before != []
    ensures ReplaceAll(before, before, after) == after
  {
    assert before[|before|..] == [];
    assert before[..|before|] == before;
  }

  /** QStringList::join(sep). */
  function Join(parts: seq<string>, sep: string): string {
    if parts == [] then []
    else if |parts| == 1 then parts[0]
    else parts[0] + sep + Join(parts[1..], sep)
  }

  /** Appending one more part adds the separator and the part at the end. */
  lemma {:induction false} JoinSnoc(parts: seq<string>, x: string, sep: string)
    requires parts != []
    ensures Join(parts + [x], sep) == Join(parts, sep) + sep + x
  {
    if |parts| == 1 {
      assert parts + [x] == [parts[0], x];
      assert [parts[0], x][1..] == [x];
    } else {
      assert (parts + [x])[1..] == parts[1..] + [x];
      JoinSnoc(parts[1..], x, sep);
    }
  }

  /** QList::removeAll(x): every element equal to `x` dropped, the others kept in order. */
  function RemoveAll<T(==)>(s: seq<T>, x: T): (r: seq<T>)
    ensures |r| <= |s|
    ensures forall i :: 0 <= i < |r| ==> r[i] != x && r[i] in s
    ensures forall i :: 0 <= i < |s| && s[i] != x ==> s[i] in r
    ensures x !in s ==> r == s
  {
    if s == [] then [] else (if s[0] == x then [] else [s[0]]) + RemoveAll(s[1..], x)
  }

  /** Exactly the copies of `x` go: every other element stays as often as it occurs. */
  lemma {:induction false} RemoveAllCounts<T>(s: seq<T>, x: T)
    ensures multiset(RemoveAll(s, x)) == multiset(s)[x := 0]
  {
    if s != [] {
      assert s == [s[0]] + s[1..];
      RemoveAllCounts(s[1..], x);
    }
  }

  /** removeAll on a concatenation works part by part, so the kept elements stay in their order. */
  lemma {:induction false} RemoveAllAppend<T>(a: seq<T>, b: seq<T>, x: T)
    ensures RemoveAll(a + b, x) == RemoveAll(a, x) + RemoveAll(b, x)
    decreases |a|
  {
    if a != [] {
      assert (a + b)[1..] == a[1..] + b;
      RemoveAllAppend(a[1..], b, x);
    } else {
      assert a + b == b;
    }
  }

  /** The lexicographic order on strings by character code that QMap keeps its keys in. */
  predicate StrLe(a: string, b: string) {
    a == [] || (b != [] && (a[0] < b[0] || (a[0] == b[0] && StrLe(a[1..], b[1..]))))
  }

  lemma {:induction false} StrLeReflexive(a: string)
    ensures StrLe(a, a)
  {
    if a != [] {
      StrLeReflexive(a[1..]);
    }
  }

  lemma {:induction false} StrLeTotal(a: string, b: string)
    ensures StrLe(a, b) || StrLe(b, a)
  {
    if a != [] && b != [] && a[0] == b[0] {
      StrLeTotal(a[1..], b[1..]);
    }
  }

  lemma {:induction false} StrLeAntisymmetric(a: string, b: string)
    requires StrLe(a, b) && StrLe(b, a)
    ensures a == b
  {
    if a != [] {
      StrLeAntisymmetric(a[1..], b[1..]);
      assert a == [a[0]] + a[1..];
      assert b == [b[0]] + b[1..];
    }
  }

  lemma {:induction false} StrLeTransitive(a: string, b: string, c: string)
    requires StrLe(a, b) && StrLe(b, c)
    ensures StrLe(a, c)
  {
    if a != [] && b != [] && c != [] && a[0] == b[0] == c[0] {
      StrLeTransitive(a[1..], b[1..], c[1..]);
    }
  }

  /** `k` is the least element of `ks`. */
  predicate IsLeast(k: string, ks: set<string>) {
    k in ks && forall j :: j in ks ==> StrLe(k, j)
  }

  /** Every non-empty finite set of strings has a least element. */
  lemma {:induction false} LeastExists(ks: set<string>)
    requires ks != {}
    ensures exists k :: IsLeast(k, ks)
    decreases |ks|
  {
    var x :| x in ks;
    if ks == {x} {
      StrLeReflexive(x);
      assert IsLeast(x, ks);
    } else {
      var rest := ks - {x};
      LeastExists(rest);
      var m :| IsLeast(m, rest);
      StrLeTotal(x, m);
      if StrLe(x, m) {
        forall j | j in ks ensures StrLe(x, j) {
          if j == x { StrLeReflexive(x); } else { StrLeTransitive(x, m, j); }
        }
        assert IsLeast(x, ks);
      } else {
        assert IsLeast(m, ks);
      }
    }
  }

  /** The least element is unique. */
  lemma LeastUnique(a: string, b: string, ks: set<string>)
    requires IsLeast(a, ks) && IsLeast(b, ks)
    ensures a == b
  {
    StrLeAntisymmetric(a, b);
  }

  /** The least element of a non-empty set of strings. */
  ghost function Least(ks: set<string>): (k: string)
    requires ks != {}
    ensures IsLeast(k, ks)
  {
    LeastExists(ks);
    var k :| IsLeast(k, ks); k
  }

  /** The elements of `ks` in ascending order, the order of QMap::keys(). */
  ghost function SortedKeys(ks: set<string>): (r: seq<string>)
    ensures |r| == |ks|
    ensures forall k :: k in r <==> k in ks
    decreases |ks|
  {
    if ks == {} then [] else var k := Least(ks); [k] + SortedKeys(ks - {k})
  }

  /** The sorted keys are in ascending order. */
  lemma {:induction false} SortedKeysAscending(ks: set<string>)
    ensures forall i, j :: 0 <= i < j < |SortedKeys(ks)| ==> StrLe(SortedKeys(ks)[i], SortedKeys(ks)[j])
    decreases |ks|
  {
    if ks != {} {
      var k := Least(ks);
      var rest := SortedKeys(ks - {k});
      SortedKeysAscending(ks - {k});
      assert SortedKeys(ks) == [k] + rest;
      forall i, j | 0 <= i < j < |SortedKeys(ks)|
        ensures StrLe(SortedKeys(ks)[i], SortedKeys(ks)[j])
      {
        if i == 0 {
          assert SortedKeys(ks)[j] == rest[j - 1] && rest[j - 1] in ks - {k};
        } else {
          assert SortedKeys(ks)[i] == rest[i - 1] && SortedKeys(ks)[j] == rest[j - 1];
        }
      }
    }
  }

  /** No string occurs twice in `s`. */
  predicate Distinct(s: seq<string>) {
    forall i, j :: 0 <= i < j < |s| ==> s[i] != s[j]
  }

  /** The sorted keys list every key once. */
  lemma {:induction false} SortedKeysDistinct(ks: set<string>)
    ensures Distinct(SortedKeys(ks))
    decreases |ks|
  {
    if ks != {} {
      var k := Least(ks);
      SortedKeysDistinct(ks - {k});
      assert k !in SortedKeys(ks - {k});
    }
  }

  /** QMap's search for its least key: one pass over the set, keeping the smallest seen. */
  method LeastOf(ks: set<string>) returns (k: string)
    requires ks != {}
    ensures k == Least(ks)
  {
    k :| k in ks;
    var todo := ks - {k};
    StrLeReflexive(k);
    while todo != {}
      invariant k in ks && todo <= ks
      invariant forall j :: j in ks && j !in todo ==> StrLe(k, j)
      decreases |todo|
    {
      var j :| j in todo;
      if !StrLe(k, j) {
        StrLeTotal(k, j);
        StrLeReflexive(j);
        forall i | i in ks && i !in todo
          ensures StrLe(j, i)
        {
          StrLeTransitive(j, k, i);
        }
        k := j;
      }
      todo := todo - {j};
    }
    LeastUnique(k, Least(ks), ks);
  }

  /** Taking the least key off the rest moves it from the sorted rest to the end of the keys taken. */
  lemma SortedKeysStep(r: seq<string>, rest: set<string>, k: string)
    requires rest != {} && k == Least(rest)
    ensures r + SortedKeys(rest) == (r + [k]) + SortedKeys(rest - {k})
  {
    assert SortedKeys(rest) == [k] + SortedKeys(rest - {k});
  }

  /** QMap::keys(): the keys in ascending order, taking the least remaining key each time. */
  method KeysInOrder(ks: set<string>) returns (r: seq<string>)
    ensures r == SortedKeys(ks)
  {
    r := [];
    var rest := ks;
    while rest != {}
      invariant r + SortedKeys(rest) == SortedKeys(ks)
      decreases |rest|
    {
      var k := LeastOf(rest);
      SortedKeysStep(r, rest, k);
      r := r + [k];
      rest := rest - {k};
    }
  }
}
