/**
 * A file tree or an object-store bucket as a value: every stored object has a
 * key (a `/`-separated path) and a content. A key ending in `/` marks a
 * directory created empty (`os.makedirs`). Local listings follow the order in
 * which keys were created; bucket listings are sorted, as `list_objects_v2`
 * returns them.
 */
module Storage {
  import opened Wrappers
  import opened Text

  // ---------------------------------------------------------------------------
  // Sequences

  predicate Distinct<T(==)>(s: seq<T>) {
    forall i, j :: 0 <= i < j < |s| ==> s[i] != s[j]
  }

  /** The elements of `s` satisfying `f`, in their order. */
  function Filter<T(!new)>(s: seq<T>, f: T -> bool): (r: seq<T>)
    ensures |r| <= |s|
    ensures forall x :: x in r <==> x in s && f(x)
    ensures forall x :: x in r ==> f(x)
  {
    if |s| == 0 then [] else (if f(s[0]) then [s[0]] else []) + Filter(s[1..], f)
  }

  /** The rows `hit` selects replaced by `f` of them, the others unchanged, in place (`update(...).eq(column, value)`). */
  function UpdateWhere<T>(rows: seq<T>, hit: T -> bool, f: T -> T): (r: seq<T>)
    ensures |r| == |rows|
    ensures forall i :: 0 <= i < |rows| ==> r[i] == if hit(rows[i]) then f(rows[i]) else rows[i]
  {
    seq(|rows|, i requires 0 <= i < |rows| => if hit(rows[i]) then f(rows[i]) else rows[i])
  }

  /** Filtering one element more of a sequence. */
  lemma FilterPrefixStep<T(!new)>(s: seq<T>, i: nat, f: T -> bool)
    requires i < |s|
    ensures Filter(s[..i + 1], f) == Filter(s[..i], f) + (if f(s[i]) then [s[i]] else [])
  {
    assert s[..i + 1] == s[..i] + [s[i]];
    FilterAppend(s[..i], s[i], f);
  }

  /** Filtering a sequence extended by one element. */
  lemma {:induction false} FilterAppend<T(!new)>(s: seq<T>, x: T, f: T -> bool)
    ensures Filter(s + [x], f) == Filter(s, f) + (if f(x) then [x] else [])
    decreases |s|
  {
    if |s| == 0 {
      assert s + [x] == [x];
    } else {
      assert (s + [x])[1..] == s[1..] + [x];
      FilterAppend(s[1..], x, f);
    }
  }

  /** Filtering distributes over concatenation: the kept elements stay in their order. */
  lemma {:induction false} FilterConcat<T(!new)>(a: seq<T>, b: seq<T>, f: T -> bool)
    ensures Filter(a + b, f) == Filter(a, f) + Filter(b, f)
    decreases |a|
  {
    if |a| == 0 {
      assert a + b == b;
    } else {
      assert (a + b)[1..] == a[1..] + b;
      FilterConcat(a[1..], b, f);
    }
  }

  /** Filtering twice by the same condition is filtering once. */
  lemma {:induction false} FilterIdempotent<T(!new)>(s: seq<T>, f: T -> bool)
    ensures Filter(Filter(s, f), f) == Filter(s, f)
    decreases |s|
  {
    if |s| > 0 {
      FilterIdempotent(s[1..], f);
      FilterConcat(if f(s[0]) then [s[0]] else [], Filter(s[1..], f), f);
    }
  }

  lemma {:induction false} FilterDistinct<T(!new)>(s: seq<T>, f: T -> bool)
    requires Distinct(s)
    ensures Distinct(Filter(s, f))
    decreases |s|
  {
    if |s| > 0 {
      FilterDistinct(s[1..], f);
      assert s[0] !in s[1..];
    }
  }

  /** The distinct elements of `s`, each at its first occurrence. */
  function Dedup<T(==,!new)>(s: seq<T>): (r: seq<T>)
    ensures Distinct(r)
    ensures forall x :: x in r <==> x in s
    decreases |s|
  {
    if |s| == 0 then []
    else
      var d := Dedup(s[..|s| - 1]);
      assert s == s[..|s| - 1] + [s[|s| - 1]];
      if s[|s| - 1] in d then d else d + [s[|s| - 1]]
  }

  // ---------------------------------------------------------------------------
  // Paths

  /** The last path component (`os.path.basename`). */
  function Basename(p: string): (r: string)
    ensures '/' !in r
    ensures EndsWith(p, r)
    decreases |p|
  {
    if '/' in p then
      var i := IndexOfChar(p, '/');
      var r := Basename(p[i + 1..]);
      assert p[|p| - |r|..] == p[i + 1..][|p[i + 1..]| - |r|..];
      r
    else p
  }

  /** Everything before the last `/` (`os.path.dirname` for a path without doubled separators). */
  function Dirname(p: string): string {
    if '/' in p then p[..|p| - |Basename(p)| - 1] else ""
  }

  lemma {:induction false} BasenameAfterSeparator(a: string, b: string)
    ensures Basename(a + "/" + b) == Basename(b)
    decreases |a|
  {
    var p := a + "/" + b;
    if '/' in a {
      var j := IndexOfChar(a, '/');
      assert p[..j] == a[..j] && p[j] == a[j];
      assert p[j + 1..] == a[j + 1..] + "/" + b;
      BasenameStep(p, j);
      BasenameAfterSeparator(a[j + 1..], b);
    } else {
      assert p[..|a|] == a && p[|a|] == '/';
      assert p[|a| + 1..] == b;
      BasenameStep(p, |a|);
    }
  }

  /** The base name after the first separator is the base name of the whole path. */
  lemma BasenameStep(p: string, j: nat)
    requires j < |p| && p[j] == '/' && '/' !in p[..j]
    ensures Basename(p) == Basename(p[j + 1..])
  {
    IndexOfCharIs(p, '/', j);
  }

  lemma BasenameShorter(p: string)
    requires '/' in p
    ensures |Basename(p)| < |p|
  {
    var i := IndexOfChar(p, '/');
    assert |Basename(p[i + 1..])| <= |p[i + 1..]|;
  }

  lemma DirnameLength(p: string)
    requires '/' in p
    ensures |Dirname(p)| == |p| - |Basename(p)| - 1
  {
    BasenameShorter(p);
  }

  lemma DirnameOfDirectChild(root: string, rel: string)
    requires '/' !in rel
    ensures Dirname(root + "/" + rel) == root
  {
    var p := root + "/" + rel;
    BasenameAfterSeparator(root, rel);
    assert Basename(p) == rel;
    assert '/' in p by {
      assert p[|root|] == '/';
    }
    assert Dirname(p) == p[..|root|];
    assert p[..|root|] == root;
  }

  lemma DirnameOfDeeperChild(root: string, rel: string)
    requires '/' in rel
    ensures |Dirname(root + "/" + rel)| > |root|
  {
    var p := root + "/" + rel;
    assert p[|root|] == '/';
    BasenameAfterSeparator(root, rel);
    DirnameLength(p);
    BasenameShorter(rel);
  }

  /** A file directly in `root` has `root` as its directory, a deeper one does not. */
  lemma DirnameOfChild(root: string, rel: string)
    ensures Dirname(root + "/" + rel) == root <==> '/' !in rel
  {
    if '/' !in rel {
      DirnameOfDirectChild(root, rel);
    } else {
      DirnameOfDeeperChild(root, rel);
    }
  }

  // ---------------------------------------------------------------------------
  // The store

  datatype Store = Store(keys: seq<string>, data: map<string, string>) {
    ghost predicate Valid() {
      Distinct(keys) && forall k :: k in data <==> k in keys
    }
  }

  /** A regular file is stored at `p`. */
  predicate IsFile(st: Store, p: string) {
    p in st.data && !EndsWith(p, "/")
  }

  /** `p` is a directory: something is stored below it (`os.path.isdir`). */
  predicate IsDir(st: Store, p: string) {
    exists k :: k in st.data && StartsWith(k, p + "/")
  }

  /** `os.path.exists`. */
  predicate Exists(st: Store, p: string) {
    p in st.data || IsDir(st, p)
  }

  /** `p` is `d` itself or lies below it. */
  predicate Under(p: string, d: string) {
    p == d || StartsWith(p, d + "/")
  }

  /** Writes `v` at `p`, creating the entry at the end of the listing order if it is new. */
  function Put(st: Store, p: string, v: string): (r: Store)
    requires st.Valid()
    ensures r.Valid()
    ensures r.data == st.data[p := v]
    ensures forall q :: IsDir(st, q) ==> IsDir(r, q)
  {
    var r := if p in st.data then st.(data := st.data[p := v]) else Store(st.keys + [p], st.data[p := v]);
    assert forall q :: IsDir(st, q) ==> IsDir(r, q) by {
      forall q | IsDir(st, q)
        ensures IsDir(r, q)
      {
        var k :| k in st.data && StartsWith(k, q + "/");
        assert k in r.data;
      }
    }
    r
  }

  /** `os.makedirs(d, exist_ok=True)`: afterwards `d` is a directory, and no file changed. */
  function MakeDirs(st: Store, d: string): (r: Store)
    requires st.Valid()
    ensures r.Valid()
    ensures IsDir(r, d)
    ensures forall k :: k in st.data ==> k in r.data && r.data[k] == st.data[k]
    ensures forall k :: k in r.data && k !in st.data ==> k == d + "/" && r.data[k] == ""
  {
    if IsDir(st, d) then st
    else
      var r := Put(st, d + "/", "");
      assert StartsWith(d + "/", d + "/");
      r
  }

  /** `shutil.rmtree(d)`: nothing at or below `d` is left, everything else is kept. */
  function RemoveTree(st: Store, d: string): (r: Store)
    requires st.Valid()
    ensures r.Valid()
    ensures !Exists(r, d)
    ensures forall k :: k in r.data <==> k in st.data && !Under(k, d)
    ensures forall k :: k in r.data ==> r.data[k] == st.data[k]
  {
    FilterDistinct(st.keys, k => !Under(k, d));
    Store(Filter(st.keys, k => !Under(k, d)), map k | k in st.data && !Under(k, d) :: st.data[k])
  }

  /** `shutil.copy2(src, dst)`: `dst` gets the content of `src`. */
  function Copy(st: Store, src: string, dst: string): (r: Store)
    requires st.Valid() && src in st.data
    ensures r.Valid()
    ensures r.data == st.data[dst := st.data[src]]
  {
    Put(st, dst, st.data[src])
  }

  // ---------------------------------------------------------------------------
  // Directory listing

  /** The name of the entry of directory `p` that key `k` lies in. */
  function ChildName(k: string, p: string): string
    requires StartsWith(k, p + "/")
  {
    var rest := k[|p| + 1..];
    if '/' in rest then rest[..IndexOfChar(rest, '/')] else rest
  }

  lemma ChildNameShape(k: string, p: string)
    requires StartsWith(k, p + "/")
    ensures '/' !in ChildName(k, p)
    ensures k == p + "/" + ChildName(k, p) || StartsWith(k, p + "/" + ChildName(k, p) + "/")
  {
    var rest := k[|p| + 1..];
    assert k == p + "/" + rest;
    if '/' in rest {
      var i := IndexOfChar(rest, '/');
      assert rest == rest[..i] + "/" + rest[i + 1..];
      assert k == (p + "/" + rest[..i] + "/") + rest[i + 1..];
    }
  }

  lemma ChildNameOf(k: string, p: string, n: string)
    requires '/' !in n
    requires k == p + "/" + n || StartsWith(k, p + "/" + n + "/")
    ensures StartsWith(k, p + "/") && ChildName(k, p) == n
  {
    var rest := k[|p| + 1..];
    if k == p + "/" + n {
      assert rest == n;
    } else {
      var q := p + "/" + n + "/";
      assert k[..|q|] == q;
      assert forall j :: 0 <= j < |n| + 1 ==> rest[j] == k[..|q|][|p| + 1 + j];
      assert forall j :: 0 <= j < |n| + 1 ==> q[|p| + 1 + j] == (n + "/")[j];
      assert rest[..|n| + 1] == n + "/";
      assert rest[|n|] == '/';
      assert rest[..|n|] == n;
      IndexOfCharIs(rest, '/', |n|);
    }
  }

  /** The entry names of every key below `p`, in key order, with repetitions. */
  function ChildNames(keys: seq<string>, p: string): seq<string> {
    if |keys| == 0 then []
    else
      (if StartsWith(keys[0], p + "/") && ChildName(keys[0], p) != "" then [ChildName(keys[0], p)] else [])
      + ChildNames(keys[1..], p)
  }

  lemma {:induction false} ChildNamesMembers(keys: seq<string>, p: string, n: string)
    ensures n in ChildNames(keys, p) <==>
            n != "" && exists k :: k in keys && StartsWith(k, p + "/") && ChildName(k, p) == n
    decreases |keys|
  {
    if |keys| > 0 {
      ChildNamesMembers(keys[1..], p, n);
      if n in ChildNames(keys[1..], p) {
        var k :| k in keys[1..] && StartsWith(k, p + "/") && ChildName(k, p) == n;
        assert k in keys;
      }
      if exists k :: k in keys && StartsWith(k, p + "/") && ChildName(k, p) == n {
        var k :| k in keys && StartsWith(k, p + "/") && ChildName(k, p) == n;
        if k != keys[0] {
          assert k in keys[1..];
        }
      }
    }
  }

  /** `os.listdir(p)`: each entry once, in listing order. */
  function ListDir(st: Store, p: string): (r: seq<string>)
    requires st.Valid()
    ensures Distinct(r)
    ensures forall n :: n in r <==> n != "" && '/' !in n && Exists(st, p + "/" + n)
  {
    var r := Dedup(ChildNames(st.keys, p));
    assert forall n :: n in r <==> n != "" && '/' !in n && Exists(st, p + "/" + n) by {
      forall n
        ensures n in r <==> n != "" && '/' !in n && Exists(st, p + "/" + n)
      {
        ChildNamesMembers(st.keys, p, n);
        if n in r {
          var k :| k in st.keys && StartsWith(k, p + "/") && ChildName(k, p) == n;
          ChildNameShape(k, p);
          if k != p + "/" + n {
            assert IsDir(st, p + "/" + n);
          }
        }
        if n != "" && '/' !in n && Exists(st, p + "/" + n) {
          if p + "/" + n in st.data {
            ChildNameOf(p + "/" + n, p, n);
          } else {
            var k :| k in st.data && StartsWith(k, p + "/" + n + "/");
            ChildNameOf(k, p, n);
          }
        }
      }
    }
    r
  }

  /** Every file below `root`, at any depth, in listing order (the files `os.walk(root)` visits). */
  function FilesUnder(st: Store, root: string): (r: seq<string>)
    requires st.Valid()
    ensures Distinct(r)
    ensures forall k :: k in r <==> IsFile(st, k) && StartsWith(k, root + "/")
  {
    FilterDistinct(st.keys, k => StartsWith(k, root + "/") && !EndsWith(k, "/"));
    Filter(st.keys, k => StartsWith(k, root + "/") && !EndsWith(k, "/"))
  }

  // ---------------------------------------------------------------------------
  // Bucket listings (`list_objects_v2`, all pages concatenated)

  predicate Ascending(s: seq<string>) {
    SortedBy(s, (a: string, b: string) => LexLe(a, b))
  }

  /** Filtering an ascending list keeps it ascending. */
  lemma {:induction false} FilterAscending(s: seq<string>, f: string -> bool)
    requires Ascending(s)
    ensures Ascending(Filter(s, f))
    decreases |s|
  {
    if |s| > 0 {
      assert Ascending(s[1..]) by {
        forall i, j | 0 <= i < j < |s[1..]|
          ensures LexLe(s[1..][i], s[1..][j])
        {
          assert s[1..][i] == s[i + 1] && s[1..][j] == s[j + 1];
        }
      }
      FilterAscending(s[1..], f);
      var rest := Filter(s[1..], f);
      if f(s[0]) {
        var r := [s[0]] + rest;
        forall i, j | 0 <= i < j < |r|
          ensures LexLe(r[i], r[j])
        {
          if i == 0 {
            assert r[j] in s[1..];
            var k :| 0 <= k < |s[1..]| && s[1..][k] == r[j];
            assert s[k + 1] == r[j];
          } else {
            assert r[i] == rest[i - 1] && r[j] == rest[j - 1];
          }
        }
      }
    }
  }

  /** The keys starting with `prefix`, ascending. */
  function ListKeys(st: Store, prefix: string): (r: seq<string>)
    ensures Ascending(r)
    ensures forall k :: k in r <==> k in st.keys && StartsWith(k, prefix)
  {
    SortStrings(Filter(st.keys, k => StartsWith(k, prefix)))
  }

  /** The part of a key after `prefix`. */
  function Rest(k: string, prefix: string): string
    requires StartsWith(k, prefix)
  {
    k[|prefix|..]
  }

  /** A key listed directly under `prefix` with delimiter `/`: no further `/`. */
  predicate DirectKey(k: string, prefix: string) {
    StartsWith(k, prefix) && '/' !in Rest(k, prefix)
  }

  /** The `Contents` of a delimited listing: keys directly under `prefix`, ascending. */
  function DirectKeys(st: Store, prefix: string): (r: seq<string>)
    ensures Ascending(r)
    ensures forall k :: k in r <==> k in st.keys && DirectKey(k, prefix)
  {
    SortStrings(Filter(st.keys, k => DirectKey(k, prefix)))
  }

  /** The common prefix a key rolls up into under `prefix` with delimiter `/`. */
  function FolderPrefix(k: string, prefix: string): string
    requires StartsWith(k, prefix) && '/' in Rest(k, prefix)
  {
    var rest := Rest(k, prefix);
    prefix + rest[..IndexOfChar(rest, '/') + 1]
  }

  predicate RollsUp(k: string, prefix: string) {
    StartsWith(k, prefix) && '/' in Rest(k, prefix)
  }

  function FolderPrefixes(keys: seq<string>, prefix: string): (r: seq<string>)
    ensures forall c :: c in r <==> exists k :: k in keys && RollsUp(k, prefix) && c == FolderPrefix(k, prefix)
  {
    if |keys| == 0 then []
    else
      var tail := FolderPrefixes(keys[1..], prefix);
      var r := (if RollsUp(keys[0], prefix) then [FolderPrefix(keys[0], prefix)] else []) + tail;
      assert forall c :: c in r <==> exists k :: k in keys && RollsUp(k, prefix) && c == FolderPrefix(k, prefix) by {
        forall c
          ensures c in r <==> exists k :: k in keys && RollsUp(k, prefix) && c == FolderPrefix(k, prefix)
        {
          if c in tail {
            var k :| k in keys[1..] && RollsUp(k, prefix) && c == FolderPrefix(k, prefix);
            assert k in keys;
          }
          if exists k :: k in keys && RollsUp(k, prefix) && c == FolderPrefix(k, prefix) {
            var k :| k in keys && RollsUp(k, prefix) && c == FolderPrefix(k, prefix);
            if k != keys[0] {
              assert k in keys[1..];
            }
          }
        }
      }
      r
  }

  /** The `CommonPrefixes` of a delimited listing: each once, ascending. */
  function CommonPrefixes(st: Store, prefix: string): (r: seq<string>)
    ensures Ascending(r)
    ensures forall c :: c in r <==> exists k :: k in st.keys && RollsUp(k, prefix) && c == FolderPrefix(k, prefix)
  {
    SortStrings(Dedup(FolderPrefixes(st.keys, prefix)))
  }

  lemma FolderPrefixShape(k: string, prefix: string)
    requires RollsUp(k, prefix)
    ensures StartsWith(FolderPrefix(k, prefix), prefix)
    ensures EndsWith(FolderPrefix(k, prefix), "/")
    ensures '/' !in Rest(FolderPrefix(k, prefix), prefix)[..|Rest(FolderPrefix(k, prefix), prefix)| - 1]
    ensures StartsWith(k, FolderPrefix(k, prefix))
  {
    var rest := Rest(k, prefix);
    var i := IndexOfChar(rest, '/');
    var c := FolderPrefix(k, prefix);
    assert c == prefix + rest[..i + 1];
    assert c[..|prefix|] == prefix;
    assert Rest(c, prefix) == rest[..i + 1];
    assert Rest(c, prefix)[..i] == rest[..i];
    assert k == prefix + rest;
    assert k[..|c|] == c;
  }
}
