/**
  String helpers the scripts get from Python: the ordering of `str` (used by `sorted`),
  `sorted` itself on a list of strings, `" ".join`, and the two facts about
  `pathlib.Path` the scripts rely on (`/` and the entries of a directory). A
  first-occurrence search serves the model's own functions that read commands and names
  back.
 */
module Strings {

  // ---------------------------------------------------------------------------
  // Python's `<=` on str: code point by code point, a proper prefix sorts first.
  // ---------------------------------------------------------------------------

  predicate Le(a: string, b: string)
    decreases |a|
  {
    a == [] || (b != [] && (a[0] < b[0] || (a[0] == b[0] && Le(a[1..], b[1..]))))
  }

  lemma {:induction false} LeReflexive(a: string)
    ensures Le(a, a)
    decreases |a|
  {
    if a != [] { LeReflexive(a[1..]); }
  }

  lemma {:induction false} LeTotal(a: string, b: string)
    ensures Le(a, b) || Le(b, a)
    decreases |a|
  {
    if a != [] && b != [] && a[0] == b[0] { LeTotal(a[1..], b[1..]); }
  }

  lemma {:induction false} LeAntisymmetric(a: string, b: string)
    requires Le(a, b) && Le(b, a)
    ensures a == b
    decreases |a|
  {
    if a != [] && b != [] {
      LeAntisymmetric(a[1..], b[1..]);
      assert a == [a[0]] + a[1..] && b == [b[0]] + b[1..];
    }
  }

  lemma {:induction false} LeTransitive(a: string, b: string, c: string)
    requires Le(a, b) && Le(b, c)
    ensures Le(a, c)
    decreases |a|
  {
    if a != [] && b != [] && c != [] && a[0] == b[0] && b[0] == c[0] {
      LeTransitive(a[1..], b[1..], c[1..]);
    }
  }

  /** Ascending in Python's order: every earlier element is `<=` every later one. */
  ghost predicate Sorted(s: seq<string>)
  {
    forall i, j {:trigger Le(s[i], s[j])} :: 0 <= i < j < |s| ==> Le(s[i], s[j])
  }

  /** Every element of `s` is at least `x`. */
  ghost predicate AllAtLeast(x: string, s: seq<string>)
  {
    forall j {:trigger Le(x, s[j])} :: 0 <= j < |s| ==> Le(x, s[j])
  }

  lemma AtLeastHead(x: string, s: seq<string>)
    requires Sorted(s) && s != [] && Le(x, s[0])
    ensures AllAtLeast(x, s)
  {
    forall j | 0 <= j < |s| ensures Le(x, s[j]) {
      if j > 0 { LeTransitive(x, s[0], s[j]); }
    }
  }

  lemma AtLeastPermuted(x: string, s: seq<string>, t: seq<string>)
    requires AllAtLeast(x, s) && multiset(t) <= multiset(s)
    ensures AllAtLeast(x, t)
  {
    forall j | 0 <= j < |t| ensures Le(x, t[j]) {
      assert t[j] in multiset(t);
      var k :| 0 <= k < |s| && s[k] == t[j];
    }
  }

  /** Inserts `x` into an ascending list, keeping it ascending. */
  function Insert(x: string, s: seq<string>): (r: seq<string>)
    requires Sorted(s)
    ensures Sorted(r)
    ensures multiset(r) == multiset(s) + multiset{x}
  {
    if s == [] then [x]
    else if Le(x, s[0]) then
      AtLeastHead(x, s);
      [x] + s
    else
      LeTotal(x, s[0]);
      var t := Insert(x, s[1..]);
      assert s == [s[0]] + s[1..];
      assert AllAtLeast(s[0], s[1..] + [x]) by {
        forall j | 0 <= j < |s[1..] + [x]| ensures Le(s[0], (s[1..] + [x])[j]) {
          if j < |s| - 1 { assert (s[1..] + [x])[j] == s[j + 1]; }
        }
      }
      AtLeastPermuted(s[0], s[1..] + [x], t);
      [s[0]] + t
  }

  /** Python's `sorted` on a list of strings: ascending, and a permutation of its input. */
  function Sort(s: seq<string>): (r: seq<string>)
    ensures Sorted(r)
    ensures multiset(r) == multiset(s)
    ensures |r| == |s|
  {
    if s == [] then []
    else
      assert s == [s[0]] + s[1..];
      Insert(s[0], Sort(s[1..]))
  }

  /** The last element of an ascending list is its maximum. */
  lemma SortedLastIsMax(s: seq<string>, x: string)
    requires Sorted(s) && x in s
    ensures Le(x, s[|s| - 1])
  {
    var k :| 0 <= k < |s| && s[k] == x;
    if k < |s| - 1 { } else { LeReflexive(x); }
  }

  // ---------------------------------------------------------------------------
  // `sep.join(parts)`, and the first occurrence of a character
  // ---------------------------------------------------------------------------

  function Join(parts: seq<string>, sep: string): (r: string)
  {
    if parts == [] then ""
    else if |parts| == 1 then parts[0]
    else parts[0] + sep + Join(parts[1..], sep)
  }

  /** Joining two non-empty lists of parts puts one separator between their joins. */
  lemma {:induction false} JoinAppend(a: seq<string>, b: seq<string>, sep: string)
    requires a != [] && b != []
    ensures Join(a + b, sep) == Join(a, sep) + sep + Join(b, sep)
  {
    assert (a + b)[0] == a[0];
    if |a| == 1 {
      assert (a + b)[1..] == b;
    } else {
      assert (a + b)[1..] == a[1..] + b;
      JoinAppend(a[1..], b, sep);
    }
  }

  /** Position of the first `c` in `s`, or `|s|` when there is none. */
  function IndexOf(s: string, c: char): (r: nat)
    ensures r <= |s|
    ensures c !in s[..r]
    ensures r < |s| ==> s[r] == c
    ensures r == |s| <==> c !in s
  {
    if s == [] then 0
    else if s[0] == c then 0
    else
      assert s[..1 + IndexOf(s[1..], c)] == [s[0]] + s[1..][..IndexOf(s[1..], c)];
      1 + IndexOf(s[1..], c)
  }

  /** The first `c` of `a + [c] + b` is the one that was put there, when `a` holds none. */
  lemma {:induction false} IndexOfSeparator(a: string, c: char, b: string)
    requires c !in a
    ensures IndexOf(a + [c] + b, c) == |a|
  {
    if a != [] {
      assert (a + [c] + b)[1..] == a[1..] + [c] + b;
      IndexOfSeparator(a[1..], c, b);
    }
  }

  /** Splitting `a + [c] + b` at its first `c` gives back `a` and `b`, when `a` holds none. */
  lemma SplitAtSeparator(a: string, c: char, b: string)
    requires c !in a
    ensures var t := a + [c] + b;
      IndexOf(t, c) == |a| && t[..|a|] == a && t[|a| + 1..] == b
  {
    IndexOfSeparator(a, c, b);
    var t := a + [c] + b;
    assert t[..|a|] == a;
    assert t[|a| + 1..] == b;
  }

  // ---------------------------------------------------------------------------
  // Paths: `dir / name`, and the entries `dir.iterdir()` yields
  // ---------------------------------------------------------------------------

  function Child(dir: string, name: string): string
  {
    dir + "/" + name
  }

  /** `f` is an entry directly inside `dir`: `dir/name` with a non-empty `name` free of `/`. */
  predicate InDir(dir: string, f: string)
  {
    |f| > |dir| + 1 && f[..|dir| + 1] == dir + "/" && '/' !in f[|dir| + 1..]
  }

  lemma ChildInDir(dir: string, name: string)
    ensures InDir(dir, Child(dir, name)) <==> name != [] && '/' !in name
  {
    var f := Child(dir, name);
    assert f[..|dir| + 1] == dir + "/";
    assert f[|dir| + 1..] == name;
  }
}
