/**
 * String and list helpers shared by the backend scripts and the tracker:
 * prefix/suffix tests, substring search, Python's `str.replace`, `str.split`
 * on one character, `str.lower`/`str.capitalize` on ASCII letters, the
 * code-point order of `sorted()` and POSIX `os.path.join`.
 */
module Text {
  import opened Wrappers

  predicate StartsWith(s: string, p: string) {
    |p| <= |s| && s[..|p|] == p
  }

  predicate EndsWith(s: string, p: string) {
    |p| <= |s| && s[|s| - |p|..] == p
  }

  /** `p` occurs in `s` starting at index `i`. */
  predicate OccursAt(s: string, p: string, i: nat) {
    i + |p| <= |s| && s[i..i + |p|] == p
  }

  /** Substring test (`p in s` in Python, `s.includes(p)` in JavaScript). */
  predicate Contains(s: string, p: string) {
    exists i: nat :: i <= |s| && OccursAt(s, p, i)
  }

  lemma StartsWithContains(s: string, p: string)
    requires StartsWith(s, p)
    ensures Contains(s, p)
  {
    assert OccursAt(s, p, 0);
  }

  lemma ContainsMonotonic(s: string, p: string, q: string)
    requires Contains(p, q)
    ensures Contains(s + p, q) && Contains(p + s, q)
  {
    var i: nat :| i <= |p| && OccursAt(p, q, i);
    assert (s + p)[|s| + i..|s| + i + |q|] == p[i..i + |q|];
    assert OccursAt(s + p, q, |s| + i);
    assert (p + s)[i..i + |q|] == p[i..i + |q|];
    assert OccursAt(p + s, q, i);
  }

  // ---------------------------------------------------------------------------
  // Character-level rewriting

  /** Every occurrence of character `a` replaced by `b` (`s.replace(a, b)` for one character). */
  function ReplaceChar(s: string, a: char, b: char): (r: string)
    ensures |r| == |s|
    ensures a != b ==> a !in r
    ensures forall i :: 0 <= i < |s| && s[i] != a ==> r[i] == s[i]
    ensures forall i :: 0 <= i < |s| && s[i] == a ==> r[i] == b
  {
    seq(|s|, i requires 0 <= i < |s| => if s[i] == a then b else s[i])
  }

  lemma ReplaceCharIdempotent(s: string, a: char, b: char)
    ensures ReplaceChar(ReplaceChar(s, a, b), a, b) == ReplaceChar(s, a, b)
  {
  }

  lemma ReplaceCharAbsent(s: string, a: char, b: char)
    requires a !in s
    ensures ReplaceChar(s, a, b) == s
  {
  }

  lemma ReplaceCharConcat(s: string, t: string, a: char, b: char)
    ensures ReplaceChar(s + t, a, b) == ReplaceChar(s, a, b) + ReplaceChar(t, a, b)
  {
  }

  /**
   * Python `s.replace(pat, rep)`: occurrences found left to right, never
   * overlapping, every one replaced.
   */
  function ReplaceAll(s: string, pat: string, rep: string): string
    requires |pat| > 0
    decreases |s|
  {
    if |s| < |pat| then s
    else if s[..|pat|] == pat then rep + ReplaceAll(s[|pat|..], pat, rep)
    else [s[0]] + ReplaceAll(s[1..], pat, rep)
  }

  /** A string without an occurrence of the pattern is left alone. */
  lemma {:induction false} ReplaceAllAbsent(s: string, pat: string, rep: string)
    requires |pat| > 0
    requires !Contains(s, pat)
    ensures ReplaceAll(s, pat, rep) == s
    decreases |s|
  {
    if |s| >= |pat| {
      assert !OccursAt(s, pat, 0);
      if !Contains(s[1..], pat) {
        ReplaceAllAbsent(s[1..], pat, rep);
      } else {
        assert s == s[..1] + s[1..];
        ContainsMonotonic(s[..1], s[1..], pat);
      }
    }
  }

  /** A match at the front is replaced and the rest is rewritten. */
  lemma ReplaceAllMatchesHead(s: string, pat: string, rep: string)
    requires |pat| > 0
    ensures ReplaceAll(pat + s, pat, rep) == rep + ReplaceAll(s, pat, rep)
  {
    assert (pat + s)[..|pat|] == pat;
    assert (pat + s)[|pat|..] == s;
  }

  /** Without a match at the front, the first character is kept and the rest is rewritten. */
  lemma ReplaceAllKeepsHead(s: string, pat: string, rep: string)
    requires |pat| > 0 && |s| > 0
    requires !(|s| >= |pat| && s[..|pat|] == pat)
    ensures ReplaceAll(s, pat, rep) == [s[0]] + ReplaceAll(s[1..], pat, rep)
  {
    if |s| < |pat| {
      assert ReplaceAll(s[1..], pat, rep) == s[1..];
      assert s == [s[0]] + s[1..];
    }
  }

  /** A pattern free of `c` does not match at the front of `a + [c] + b` unless it matches in `a`. */
  lemma NoMatchAcrossSeparator(a: string, c: char, b: string, pat: string)
    requires |pat| > 0 && c !in pat
    requires !(|a| >= |pat| && a[..|pat|] == pat)
    ensures !(|a + [c] + b| >= |pat| && (a + [c] + b)[..|pat|] == pat)
  {
    var s := a + [c] + b;
    if |s| >= |pat| {
      if |a| < |pat| {
        assert s[..|pat|][|a|] == c;
      } else {
        assert s[..|pat|] == a[..|pat|];
      }
    }
  }

  /**
   * When the separator cannot take part in a match, replacing in `a + [c] + b`
   * is replacing in each part separately.
   */
  lemma {:induction false} ReplaceAllSplit(a: string, c: char, b: string, pat: string, rep: string)
    requires |pat| > 0 && c !in pat
    ensures ReplaceAll(a + [c] + b, pat, rep) == ReplaceAll(a, pat, rep) + [c] + ReplaceAll(b, pat, rep)
    decreases |a|
  {
    if |a| >= |pat| && a[..|pat|] == pat {
      ReplaceAllSplit(a[|pat|..], c, b, pat, rep);
      SplitAfterMatch(a, c, b, pat, rep);
    } else if |a| == 0 {
      SplitAtSeparator(c, b, pat, rep);
    } else {
      ReplaceAllSplit(a[1..], c, b, pat, rep);
      SplitAfterKept(a, c, b, pat, rep);
    }
  }

  /** The step of `ReplaceAllSplit` where `a` starts with the pattern. */
  lemma SplitAfterMatch(a: string, c: char, b: string, pat: string, rep: string)
    requires |pat| > 0 && |a| >= |pat| && a[..|pat|] == pat
    requires ReplaceAll(a[|pat|..] + [c] + b, pat, rep) == ReplaceAll(a[|pat|..], pat, rep) + [c] + ReplaceAll(b, pat, rep)
    ensures ReplaceAll(a + [c] + b, pat, rep) == ReplaceAll(a, pat, rep) + [c] + ReplaceAll(b, pat, rep)
  {
    var tail := a[|pat|..];
    assert a == pat + tail;
    assert a + [c] + b == pat + (tail + [c] + b);
    ReplaceAllMatchesHead(tail + [c] + b, pat, rep);
    ReplaceAllMatchesHead(tail, pat, rep);
  }

  /** The step of `ReplaceAllSplit` where `a` is empty. */
  lemma SplitAtSeparator(c: char, b: string, pat: string, rep: string)
    requires |pat| > 0 && c !in pat
    ensures ReplaceAll([] + [c] + b, pat, rep) == ReplaceAll([], pat, rep) + [c] + ReplaceAll(b, pat, rep)
  {
    var s := [] + [c] + b;
    NoMatchAcrossSeparator([], c, b, pat);
    ReplaceAllKeepsHead(s, pat, rep);
    assert s[1..] == b;
  }

  /** The step of `ReplaceAllSplit` where the first character of `a` is kept. */
  lemma SplitAfterKept(a: string, c: char, b: string, pat: string, rep: string)
    requires |pat| > 0 && c !in pat && |a| > 0 && !(|a| >= |pat| && a[..|pat|] == pat)
    requires ReplaceAll(a[1..] + [c] + b, pat, rep) == ReplaceAll(a[1..], pat, rep) + [c] + ReplaceAll(b, pat, rep)
    ensures ReplaceAll(a + [c] + b, pat, rep) == ReplaceAll(a, pat, rep) + [c] + ReplaceAll(b, pat, rep)
  {
    KeptBeforeSeparator(a, c, b, pat, rep);
    ReplaceAllKeepsHead(a, pat, rep);
    ConsAssociates(a[0], ReplaceAll(a[1..], pat, rep), c, ReplaceAll(b, pat, rep));
  }

  lemma KeptBeforeSeparator(a: string, c: char, b: string, pat: string, rep: string)
    requires |pat| > 0 && c !in pat && |a| > 0 && !(|a| >= |pat| && a[..|pat|] == pat)
    ensures ReplaceAll(a + [c] + b, pat, rep) == [a[0]] + ReplaceAll(a[1..] + [c] + b, pat, rep)
  {
    var s := a + [c] + b;
    NoMatchAcrossSeparator(a, c, b, pat);
    ReplaceAllKeepsHead(s, pat, rep);
    assert s[1..] == a[1..] + [c] + b;
  }

  lemma ConsAssociates(h: char, x: string, c: char, y: string)
    ensures [h] + (x + [c] + y) == ([h] + x) + [c] + y
  {
  }

  /** A replacement of the pattern's own length keeps the length of the string. */
  lemma {:induction false} ReplaceAllLength(s: string, pat: string, rep: string)
    requires |pat| > 0 && |rep| == |pat|
    ensures |ReplaceAll(s, pat, rep)| == |s|
    decreases |s|
  {
    if |s| >= |pat| {
      if s[..|pat|] == pat {
        ReplaceAllLength(s[|pat|..], pat, rep);
      } else {
        ReplaceAllLength(s[1..], pat, rep);
      }
    }
  }

  /** A character that is neither in the string nor in the replacement is not in the result. */
  lemma {:induction false} ReplaceAllFree(s: string, pat: string, rep: string, c: char)
    requires |pat| > 0 && c !in s && c !in rep
    ensures c !in ReplaceAll(s, pat, rep)
    decreases |s|
  {
    if |s| >= |pat| {
      if s[..|pat|] == pat {
        assert forall x :: x in s[|pat|..] ==> x in s;
        ReplaceAllFree(s[|pat|..], pat, rep, c);
      } else {
        assert forall x :: x in s[1..] ==> x in s;
        ReplaceAllFree(s[1..], pat, rep, c);
      }
    }
  }

  /**
   * A string holding the pattern is changed by replacing it with a different
   * string of the same length.
   */
  lemma {:induction false} ReplaceAllChanges(s: string, pat: string, rep: string)
    requires |pat| > 0 && |rep| == |pat| && rep != pat
    requires Contains(s, pat)
    ensures ReplaceAll(s, pat, rep) != s
    decreases |s|
  {
    var i: nat :| i <= |s| && OccursAt(s, pat, i);
    if s[..|pat|] == pat {
      var r := ReplaceAll(s, pat, rep);
      assert r[..|pat|] == rep;
      assert r[..|pat|] != s[..|pat|];
    } else {
      assert i != 0;
      assert s[1..][i - 1..i - 1 + |pat|] == s[i..i + |pat|];
      assert OccursAt(s[1..], pat, i - 1);
      ReplaceAllChanges(s[1..], pat, rep);
      var r := ReplaceAll(s, pat, rep);
      assert r == [s[0]] + ReplaceAll(s[1..], pat, rep);
      assert r[1..] == ReplaceAll(s[1..], pat, rep);
      assert r[1..] != s[1..];
    }
  }

  // ---------------------------------------------------------------------------
  // Splitting on one character and joining back

  /** Index of the first `c` in `s`. */
  function IndexOfChar(s: string, c: char): (r: nat)
    requires c in s
    ensures r < |s| && s[r] == c && c !in s[..r]
  {
    if s[0] == c then 0 else 1 + IndexOfChar(s[1..], c)
  }

  lemma {:induction false} IndexOfCharIs(s: string, c: char, i: nat)
    requires i < |s| && s[i] == c && c !in s[..i]
    ensures IndexOfChar(s, c) == i
  {
    if i > 0 {
      assert s[0] == s[..i][0];
      assert s[1..][..i - 1] == s[..i][1..];
      IndexOfCharIs(s[1..], c, i - 1);
    }
  }

  /** `sep.join(parts)` for a one-character separator. */
  function JoinWith(parts: seq<string>, c: char): string {
    if |parts| == 0 then ""
    else if |parts| == 1 then parts[0]
    else parts[0] + [c] + JoinWith(parts[1..], c)
  }

  /**
   * Python `s.split(c)`: always at least one piece, no piece contains the
   * separator, and joining the pieces with it gives back `s`.
   */
  function Split(s: string, c: char): (r: seq<string>)
    ensures |r| >= 1
    ensures forall i :: 0 <= i < |r| ==> c !in r[i]
    ensures JoinWith(r, c) == s
    decreases |s|
  {
    if c !in s then [s]
    else
      var i := IndexOfChar(s, c);
      assert s == s[..i] + [c] + s[i + 1..];
      [s[..i]] + Split(s[i + 1..], c)
  }

  /** First position of `x` in `xs` (`list.index`, returning None instead of raising). */
  function IndexOf<T(==)>(xs: seq<T>, x: T): (r: Option<nat>)
    ensures r.None? <==> x !in xs
    ensures r.Some? ==> r.value < |xs| && xs[r.value] == x && x !in xs[..r.value]
  {
    if |xs| == 0 then None
    else if xs[0] == x then Some(0)
    else match IndexOf(xs[1..], x)
      case None => None
      case Some(k) => Some(k + 1)
  }

  /** `IndexOf` finds the first occurrence. */
  lemma {:induction false} IndexOfIs<T>(xs: seq<T>, x: T, i: nat)
    requires i < |xs| && xs[i] == x && x !in xs[..i]
    ensures IndexOf(xs, x) == Some(i)
  {
    if i > 0 {
      assert xs[0] == xs[..i][0];
      assert xs[1..][..i - 1] == xs[..i][1..];
      IndexOfIs(xs[1..], x, i - 1);
    }
  }

  // ---------------------------------------------------------------------------
  // Letter case (ASCII letters; other characters are unchanged)

  function LowerChar(c: char): char {
    if 'A' <= c <= 'Z' then (c as int + 32) as char else c
  }

  function UpperChar(c: char): char {
    if 'a' <= c <= 'z' then (c as int - 32) as char else c
  }

  /** Python `s.lower()`. */
  function ToLower(s: string): (r: string)
    ensures |r| == |s|
    ensures forall i :: 0 <= i < |s| ==> r[i] == LowerChar(s[i])
  {
    seq(|s|, i requires 0 <= i < |s| => LowerChar(s[i]))
  }

  lemma ToLowerIdempotent(s: string)
    ensures ToLower(ToLower(s)) == ToLower(s)
  {
  }

  /** Python `s.capitalize()`: first character upper case, the rest lower case. */
  function Capitalize(s: string): (r: string)
    ensures |r| == |s|
    ensures ToLower(r) == ToLower(s)
  {
    if |s| == 0 then "" else [UpperChar(s[0])] + ToLower(s[1..])
  }

  /** Two strings are equal ignoring the case of ASCII letters. */
  predicate EqualsIgnoreCase(a: string, b: string) {
    ToLower(a) == ToLower(b)
  }

  // ---------------------------------------------------------------------------
  // Code-point lexicographic order (Python `sorted`, S3 key order)

  predicate LexLe(a: string, b: string)
    decreases |a|
  {
    |a| == 0 || (|b| > 0 && (a[0] < b[0] || (a[0] == b[0] && LexLe(a[1..], b[1..]))))
  }

  lemma {:induction false} LexLeRefl(a: string)
    ensures LexLe(a, a)
    decreases |a|
  {
    if |a| > 0 {
      LexLeRefl(a[1..]);
    }
  }

  lemma {:induction false} LexLeTotal(a: string, b: string)
    ensures LexLe(a, b) || LexLe(b, a)
    decreases |a|
  {
    if |a| > 0 && |b| > 0 && a[0] == b[0] {
      LexLeTotal(a[1..], b[1..]);
    }
  }

  lemma {:induction false} LexLeTrans(a: string, b: string, c: string)
    requires LexLe(a, b) && LexLe(b, c)
    ensures LexLe(a, c)
    decreases |a|
  {
    if |a| > 0 && a[0] == b[0] && b[0] == c[0] {
      LexLeTrans(a[1..], b[1..], c[1..]);
    }
  }

  lemma {:induction false} LexLeAntisym(a: string, b: string)
    requires LexLe(a, b) && LexLe(b, a)
    ensures a == b
    decreases |a|
  {
    if |a| > 0 {
      LexLeAntisym(a[1..], b[1..]);
      assert a == [a[0]] + a[1..];
      assert b == [b[0]] + b[1..];
    }
  }

  // ---------------------------------------------------------------------------
  // Stable insertion sort by a total preorder

  ghost predicate TotalPreorder<T(!new)>(le: (T, T) -> bool) {
    (forall x, y :: le(x, y) || le(y, x)) &&
    (forall x, y, z :: le(x, y) && le(y, z) ==> le(x, z))
  }

  predicate SortedBy<T>(s: seq<T>, le: (T, T) -> bool) {
    forall i, j :: 0 <= i < j < |s| ==> le(s[i], s[j])
  }

  function Insert<T>(x: T, s: seq<T>, le: (T, T) -> bool): seq<T>
  {
    if |s| == 0 then [x]
    else if le(x, s[0]) then [x] + s
    else [s[0]] + Insert(x, s[1..], le)
  }

  /** Insertion sort; equal elements keep their input order (JavaScript `Array.sort`, Python `sorted`). */
  function SortBy<T>(s: seq<T>, le: (T, T) -> bool): seq<T>
  {
    if |s| == 0 then [] else Insert(s[0], SortBy(s[1..], le), le)
  }

  lemma {:induction false} InsertPermutes<T>(x: T, s: seq<T>, le: (T, T) -> bool)
    ensures multiset(Insert(x, s, le)) == multiset(s) + multiset{x}
    decreases |s|
  {
    if |s| > 0 && !le(x, s[0]) {
      InsertPermutes(x, s[1..], le);
      assert s == [s[0]] + s[1..];
    }
  }

  lemma {:induction false} InsertSorted<T(!new)>(x: T, s: seq<T>, le: (T, T) -> bool)
    requires TotalPreorder(le) && SortedBy(s, le)
    ensures SortedBy(Insert(x, s, le), le)
    decreases |s|
  {
    if |s| > 0 && !le(x, s[0]) {
      InsertSorted(x, s[1..], le);
      InsertPermutes(x, s[1..], le);
      var r := Insert(x, s, le);
      var t := Insert(x, s[1..], le);
      assert r == [s[0]] + t;
      forall j | 0 < j < |r|
        ensures le(s[0], r[j])
      {
        assert r[j] in multiset(t);
        assert r[j] in multiset(s[1..]) + multiset{x};
        if r[j] == x {
          assert le(s[0], x);
        } else {
          assert r[j] in s[1..];
          var k :| 0 <= k < |s[1..]| && s[1..][k] == r[j];
          assert s[k + 1] == r[j];
        }
      }
    }
  }

  lemma {:induction false} SortByCorrect<T(!new)>(s: seq<T>, le: (T, T) -> bool)
    requires TotalPreorder(le)
    ensures SortedBy(SortBy(s, le), le)
    ensures multiset(SortBy(s, le)) == multiset(s)
    decreases |s|
  {
    if |s| > 0 {
      SortByCorrect(s[1..], le);
      InsertSorted(s[0], SortBy(s[1..], le), le);
      InsertPermutes(s[0], SortBy(s[1..], le), le);
      assert s == [s[0]] + s[1..];
    }
  }

  lemma LexLeTotalPreorder()
    ensures TotalPreorder((a: string, b: string) => LexLe(a, b))
  {
    forall a: string, b: string
      ensures LexLe(a, b) || LexLe(b, a)
    {
      LexLeTotal(a, b);
    }
    forall a: string, b: string, c: string | LexLe(a, b) && LexLe(b, c)
      ensures LexLe(a, c)
    {
      LexLeTrans(a, b, c);
    }
  }

  /** Python `sorted(names)`: ascending code-point order, same elements. */
  function SortStrings(s: seq<string>): (r: seq<string>)
    ensures SortedBy(r, (a: string, b: string) => LexLe(a, b))
    ensures multiset(r) == multiset(s)
    ensures forall x :: x in r <==> x in s
  {
    LexLeTotalPreorder();
    SortByCorrect(s, (a: string, b: string) => LexLe(a, b));
    var r := SortBy(s, (a: string, b: string) => LexLe(a, b));
    assert forall x :: x in r <==> x in multiset(r);
    assert forall x :: x in s <==> x in multiset(s);
    r
  }

  /**
   * The first element of `sorted(names, reverse=True)`, i.e. the greatest
   * name, or None for an empty list.
   */
  function Greatest(s: seq<string>): (r: Option<string>)
    ensures r.None? <==> |s| == 0
    ensures r.Some? ==> r.value in s && forall x :: x in s ==> LexLe(x, r.value)
  {
    if |s| == 0 then None
    else
      var sorted := SortStrings(s);
      assert sorted[|sorted| - 1] in multiset(s);
      assert forall x :: x in s ==> LexLe(x, sorted[|sorted| - 1]) by {
        forall x | x in s
          ensures LexLe(x, sorted[|sorted| - 1])
        {
          assert x in multiset(sorted);
          var k :| 0 <= k < |sorted| && sorted[k] == x;
          if k < |sorted| - 1 {
          } else {
            LexLeRefl(x);
          }
        }
      }
      Some(sorted[|sorted| - 1])
  }

  // ---------------------------------------------------------------------------
  // Paths

  /** POSIX `os.path.join(a, b)`: an absolute `b` wins, no doubled separator. */
  function PathJoin(a: string, b: string): (r: string)
    ensures !StartsWith(b, "/") && |a| > 0 && !EndsWith(a, "/") ==> r == a + "/" + b
    ensures !StartsWith(b, "/") && (|a| == 0 || EndsWith(a, "/")) ==> r == a + b
    ensures StartsWith(b, "/") ==> r == b
  {
    if StartsWith(b, "/") then b
    else if |a| == 0 || EndsWith(a, "/") then a + b
    else a + "/" + b
  }

  /** Decimal rendering of a natural number (`str(n)`). */
  function NatToString(n: nat): (r: string)
    ensures |r| >= 1
    ensures |r| == 1 <==> n < 10
    ensures forall i :: 0 <= i < |r| ==> '0' <= r[i] <= '9'
    decreases n
  {
    var d := ['0' + (n % 10) as char];
    if n < 10 then d else NatToString(n / 10) + d
  }
}
