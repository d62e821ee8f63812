/**
 * Paths of the abstract filesystem and the order in which `list.sort()`
 * arranges them: pathlib compares paths component by component, and each
 * component as a Python string, code point by code point; a proper prefix
 * sorts first in both. This is the order of `PosixPath`; a `WindowsPath`
 * compares lower-cased components instead.
 */
module PathOrder {

  /** A path as the sequence of its components. */
  type Path = seq<string>

  /** Python's `<` on `str`. */
  predicate StrLt(a: string, b: string)
    decreases |a|
  {
    |b| > 0 && (|a| == 0 || a[0] < b[0] || (a[0] == b[0] && StrLt(a[1..], b[1..])))
  }

  /** pathlib's `<` on paths. */
  predicate PathLt(a: Path, b: Path)
    decreases |a|
  {
    |b| > 0 && (|a| == 0 || StrLt(a[0], b[0]) || (a[0] == b[0] && PathLt(a[1..], b[1..])))
  }

  predicate PathLe(a: Path, b: Path) {
    a == b || PathLt(a, b)
  }

  lemma {:induction false} StrLtAsymmetric(a: string, b: string)
    ensures !(StrLt(a, b) && StrLt(b, a))
    decreases |a|
  {
    if |a| > 0 && |b| > 0 && a[0] == b[0] {
      StrLtAsymmetric(a[1..], b[1..]);
    }
  }

  lemma {:induction false} StrLtTransitive(a: string, b: string, c: string)
    requires StrLt(a, b) && StrLt(b, c)
    ensures StrLt(a, c)
    decreases |a|
  {
    if |a| > 0 && a[0] == b[0] && b[0] == c[0] {
      StrLtTransitive(a[1..], b[1..], c[1..]);
    }
  }

  lemma {:induction false} StrLtTotal(a: string, b: string)
    requires a != b
    ensures StrLt(a, b) || StrLt(b, a)
    decreases |a|
  {
    if |a| > 0 && |b| > 0 && a[0] == b[0] {
      assert a == [a[0]] + a[1..] && b == [b[0]] + b[1..];
      StrLtTotal(a[1..], b[1..]);
    }
  }

  lemma {:induction false} PathLtAsymmetric(a: Path, b: Path)
    ensures !(PathLt(a, b) && PathLt(b, a))
    decreases |a|
  {
    if |a| > 0 && |b| > 0 {
      StrLtAsymmetric(a[0], b[0]);
      if a[0] == b[0] {
        PathLtAsymmetric(a[1..], b[1..]);
      }
    }
  }

  lemma {:induction false} PathLtTransitive(a: Path, b: Path, c: Path)
    requires PathLt(a, b) && PathLt(b, c)
    ensures PathLt(a, c)
    decreases |a|
  {
    if |a| > 0 {
      StrLtAsymmetric(a[0], a[0]);
      StrLtAsymmetric(b[0], b[0]);
      if a[0] == b[0] && b[0] == c[0] {
        PathLtTransitive(a[1..], b[1..], c[1..]);
      } else if a[0] != b[0] && b[0] != c[0] {
        StrLtTransitive(a[0], b[0], c[0]);
      }
    }
  }

  lemma {:induction false} PathLtTotal(a: Path, b: Path)
    requires a != b
    ensures PathLt(a, b) || PathLt(b, a)
    decreases |a|
  {
    if |a| > 0 && |b| > 0 {
      if a[0] == b[0] {
        assert a == [a[0]] + a[1..] && b == [b[0]] + b[1..];
        PathLtTotal(a[1..], b[1..]);
      } else {
        StrLtTotal(a[0], b[0]);
      }
    }
  }

  /** `PathLe` is a total order: reflexive by definition, and the following. */
  lemma PathLeOrder(a: Path, b: Path, c: Path)
    ensures PathLe(a, b) || PathLe(b, a)
    ensures PathLe(a, b) && PathLe(b, a) ==> a == b
    ensures PathLe(a, b) && PathLe(b, c) ==> PathLe(a, c)
  {
    if a != b { PathLtTotal(a, b); }
    PathLtAsymmetric(a, b);
    if PathLt(a, b) && PathLt(b, c) { PathLtTransitive(a, b, c); }
  }

  predicate Sorted(s: seq<Path>) {
    forall i, j | 0 <= i < j < |s| :: PathLe(s[i], s[j])
  }

  /** A path no greater than every element of a sorted list can head it. */
  lemma PrependSorted(h: Path, r: seq<Path>)
    requires Sorted(r)
    requires forall j | 0 <= j < |r| :: PathLe(h, r[j])
    ensures Sorted([h] + r)
  {
  }

  /** A lower bound of `t` and of `x` bounds every element of a permutation of `t + [x]`. */
  lemma BoundsInserted(h: Path, x: Path, t: seq<Path>, r: seq<Path>)
    requires forall k | 0 <= k < |t| :: PathLe(h, t[k])
    requires PathLe(h, x)
    requires multiset(r) == multiset(t) + multiset{x}
    ensures forall j | 0 <= j < |r| :: PathLe(h, r[j])
  {
    forall j | 0 <= j < |r| ensures PathLe(h, r[j]) {
      assert r[j] in multiset(r);
      if r[j] != x {
        assert r[j] in multiset(t);
        var k :| 0 <= k < |t| && t[k] == r[j];
      }
    }
  }

  /** Inserts `x` in front of the first element it does not exceed. */
  function Insert(x: Path, s: seq<Path>): (r: seq<Path>)
    requires Sorted(s)
    ensures Sorted(r)
    ensures multiset(r) == multiset(s) + multiset{x}
  {
    if s == [] then [x]
    else if PathLe(x, s[0]) then
      assert forall j | 0 <= j < |s| :: PathLe(x, s[j]) by {
        forall j | 0 <= j < |s| ensures PathLe(x, s[j]) { PathLeOrder(x, s[0], s[j]); }
      }
      PrependSorted(x, s);
      [x] + s
    else
      var rest := Insert(x, s[1..]);
      assert s == [s[0]] + s[1..];
      PathLeOrder(x, s[0], x);
      assert forall k | 0 <= k < |s[1..]| :: PathLe(s[0], s[1..][k]) by {
        forall k | 0 <= k < |s[1..]| ensures PathLe(s[0], s[1..][k]) { assert s[1..][k] == s[k + 1]; }
      }
      BoundsInserted(s[0], x, s[1..], rest);
      PrependSorted(s[0], rest);
      [s[0]] + rest
  }

  /** `items.sort()`: a sorted permutation of the input (insertion sort; with
      no equal elements to reorder, any correct sort gives the same list, see
      `SortedUnique`). */
  function SortPaths(s: seq<Path>): (r: seq<Path>)
    ensures Sorted(r)
    ensures multiset(r) == multiset(s)
  {
    if s == [] then []
    else
      assert s == s[..|s| - 1] + [s[|s| - 1]];
      Insert(s[|s| - 1], SortPaths(s[..|s| - 1]))
  }

  /** Two sorted lists with the same elements start with the same path. */
  lemma SortedHeads(a: seq<Path>, b: seq<Path>)
    requires Sorted(a) && Sorted(b) && a != [] && b != []
    requires multiset(a) == multiset(b)
    ensures a[0] == b[0]
  {
    assert a[0] in multiset(b);
    var j :| 0 <= j < |b| && b[j] == a[0];
    assert b[0] in multiset(a);
    var i :| 0 <= i < |a| && a[i] == b[0];
    assert PathLe(b[0], b[j]) && PathLe(a[0], a[i]);
    PathLeOrder(a[0], b[0], a[0]);
  }

  /** A sorted arrangement of a multiset of paths is unique. */
  lemma {:induction false} SortedUnique(a: seq<Path>, b: seq<Path>)
    requires Sorted(a) && Sorted(b)
    requires multiset(a) == multiset(b)
    ensures a == b
    decreases |a|
  {
    if a == [] {
      assert |multiset(b)| == 0;
    } else {
      assert |b| == |multiset(b)| == |multiset(a)| == |a|;
      SortedHeads(a, b);
      assert a == [a[0]] + a[1..] && b == [b[0]] + b[1..];
      assert multiset(a[1..]) == multiset(a) - multiset{a[0]};
      assert multiset(b[1..]) == multiset(b) - multiset{b[0]};
      SortedUnique(a[1..], b[1..]);
    }
  }

  predicate Distinct(s: seq<Path>) {
    forall i, j | 0 <= i < j < |s| :: s[i] != s[j]
  }

  lemma {:induction false} DistinctCounts(s: seq<Path>, x: Path)
    requires Distinct(s)
    ensures multiset(s)[x] == if x in s then 1 else 0
  {
    if s != [] {
      assert s == [s[0]] + s[1..];
      DistinctCounts(s[1..], x);
    }
  }

  /** Two duplicate-free listings of the same entries, in whatever order the
      filesystem produced them, sort to the same list. */
  lemma ListingOrderIrrelevant(a: seq<Path>, b: seq<Path>)
    requires Distinct(a) && Distinct(b)
    requires forall p :: p in a <==> p in b
    ensures SortPaths(a) == SortPaths(b)
  {
    forall p ensures multiset(a)[p] == multiset(b)[p] {
      DistinctCounts(a, p);
      DistinctCounts(b, p);
    }
    assert multiset(a) == multiset(b);
    SortedUnique(SortPaths(a), SortPaths(b));
  }

  // Renaming entries

  /** The paths of `l`, each renamed by `f`. */
  function MapPaths(f: Path -> Path, l: seq<Path>): (r: seq<Path>)
    ensures |r| == |l| && forall i | 0 <= i < |l| :: r[i] == f(l[i])
  {
    seq(|l|, i requires 0 <= i < |l| => f(l[i]))
  }

  /** `f` keeps the strict order between any two paths of `dom`. */
  predicate Monotone(f: Path -> Path, dom: seq<Path>) {
    forall p, q | p in dom && q in dom :: PathLt(p, q) ==> PathLt(f(p), f(q))
  }

  lemma MappedSorted(f: Path -> Path, s: seq<Path>, dom: seq<Path>)
    requires Monotone(f, dom) && Sorted(s)
    requires forall y | y in s :: y in dom
    ensures Sorted(MapPaths(f, s))
  {
    var r := MapPaths(f, s);
    forall i, j | 0 <= i < j < |r| ensures PathLe(r[i], r[j]) {
      assert s[i] in s && s[j] in s;
      if s[i] != s[j] { assert PathLt(s[i], s[j]); }
    }
  }

  lemma MapPathsAppend(f: Path -> Path, u: seq<Path>, v: seq<Path>)
    ensures MapPaths(f, u + v) == MapPaths(f, u) + MapPaths(f, v)
  {
  }

  /** Renaming the elements of two permutations of each other gives two
      permutations of each other. */
  lemma {:induction false} MapPathsPermutation(f: Path -> Path, a: seq<Path>, b: seq<Path>)
    requires multiset(a) == multiset(b)
    ensures multiset(MapPaths(f, a)) == multiset(MapPaths(f, b))
    decreases |a|
  {
    if a == [] {
      assert |b| == |multiset(b)| == 0;
    } else {
      var n := |a| - 1;
      var x := a[n];
      assert a == a[..n] + [x];
      assert x in multiset(b);
      var j :| 0 <= j < |b| && b[j] == x;
      var b' := b[..j] + b[j + 1..];
      assert b == b[..j] + [x] + b[j + 1..];
      assert multiset(b') == multiset(b) - multiset{x};
      MapPathsPermutation(f, a[..n], b');
      MapPathsAppend(f, a[..n], [x]);
      MapPathsAppend(f, b[..j] + [x], b[j + 1..]);
      MapPathsAppend(f, b[..j], [x]);
      MapPathsAppend(f, b[..j], b[j + 1..]);
    }
  }

  lemma SortedElements(l: seq<Path>)
    ensures forall y | y in SortPaths(l) :: y in l
  {
    forall y | y in SortPaths(l) ensures y in l {
      assert y in multiset(SortPaths(l));
    }
  }

  /** Renaming that keeps the order commutes with sorting. */
  lemma SortMapped(f: Path -> Path, l: seq<Path>)
    requires Monotone(f, l)
    ensures MapPaths(f, SortPaths(l)) == SortPaths(MapPaths(f, l))
  {
    var s := SortPaths(l);
    SortedElements(l);
    MappedSorted(f, s, l);
    MapPathsPermutation(f, s, l);
    SortedUnique(MapPaths(f, s), SortPaths(MapPaths(f, l)));
  }
}
