/** Sorting by a strict order, and why the outcome does not depend on the order of the input. */
module Orders {

  ghost predicate Strict<T(!new)>(less: (T, T) -> bool) {
    && (forall x :: !less(x, x))
    && (forall x, y, z :: less(x, y) && less(y, z) ==> less(x, z))
  }

  ghost predicate Ascending<T>(xs: seq<T>, less: (T, T) -> bool) {
    forall i, j :: 0 <= i < j < |xs| ==> less(xs[i], xs[j])
  }

  /** The order decides between any two entries. */
  ghost predicate Decided<T>(xs: seq<T>, less: (T, T) -> bool) {
    forall i, j :: 0 <= i < j < |xs| ==> less(xs[i], xs[j]) || less(xs[j], xs[i])
  }

  function Insert<T>(x: T, xs: seq<T>, less: (T, T) -> bool): seq<T> {
    if xs == [] || less(x, xs[0]) then [x] + xs else [xs[0]] + Insert(x, xs[1..], less)
  }

  /** A stable sort, as `Array.prototype.sort` is. */
  function Sort<T>(xs: seq<T>, less: (T, T) -> bool): seq<T> {
    if xs == [] then [] else Insert(xs[|xs| - 1], Sort(xs[..|xs| - 1], less), less)
  }

  lemma {:induction false} InsertContents<T>(x: T, xs: seq<T>, less: (T, T) -> bool)
    ensures multiset(Insert(x, xs, less)) == multiset(xs) + multiset{x}
  {
    if !(xs == [] || less(x, xs[0])) {
      InsertContents(x, xs[1..], less);
      assert xs == [xs[0]] + xs[1..];
    }
  }

  lemma {:induction false} SortContents<T>(xs: seq<T>, less: (T, T) -> bool)
    ensures multiset(Sort(xs, less)) == multiset(xs) && |Sort(xs, less)| == |xs|
    ensures forall x :: x in Sort(xs, less) <==> x in xs
  {
    if xs != [] {
      SortContents(xs[..|xs| - 1], less);
      InsertContents(xs[|xs| - 1], Sort(xs[..|xs| - 1], less), less);
      assert xs == xs[..|xs| - 1] + [xs[|xs| - 1]];
    }
    assert |multiset(Sort(xs, less))| == |multiset(xs)|;
    forall x ensures x in Sort(xs, less) <==> x in xs {
      assert x in multiset(Sort(xs, less)) <==> x in multiset(xs);
    }
  }

  lemma {:induction false} InsertAscends<T(!new)>(x: T, xs: seq<T>, less: (T, T) -> bool)
    requires Strict(less) && Ascending(xs, less) && forall y <- xs :: less(x, y) || less(y, x)
    ensures Ascending(Insert(x, xs, less), less)
  {
    if !(xs == [] || less(x, xs[0])) {
      InsertAscends(x, xs[1..], less);
      var rest := Insert(x, xs[1..], less);
      InsertContents(x, xs[1..], less);
      forall j | 0 <= j < |rest| ensures less(xs[0], rest[j]) {
        assert rest[j] in multiset(rest);
        if rest[j] != x {
          assert rest[j] in xs[1..];
        } else {
          assert xs[0] in xs;
        }
      }
    }
  }

  lemma {:induction false} SortAscends<T(!new)>(xs: seq<T>, less: (T, T) -> bool)
    requires Strict(less) && Decided(xs, less)
    ensures Ascending(Sort(xs, less), less)
  {
    if xs != [] {
      var front, last := xs[..|xs| - 1], xs[|xs| - 1];
      SortAscends(front, less);
      SortContents(front, less);
      forall y | y in Sort(front, less) ensures less(last, y) || less(y, last) {
        var i :| 0 <= i < |front| && front[i] == y;
        assert xs[i] == y;
      }
      InsertAscends(last, Sort(front, less), less);
    }
  }

  /** There is only one way to list given elements in ascending order. */
  lemma {:induction false} AscendingUnique<T(!new)>(a: seq<T>, b: seq<T>, less: (T, T) -> bool)
    requires Strict(less) && Ascending(a, less) && Ascending(b, less)
    requires |a| == |b| && forall x :: x in a <==> x in b
    ensures a == b
  {
    if a != [] {
      assert a[0] in b;
      assert b[0] in a;
      var k :| 0 <= k < |b| && b[k] == a[0];
      var l :| 0 <= l < |a| && a[l] == b[0];
      assert a[0] == b[0];
      forall x ensures x in a[1..] <==> x in b[1..] {
        TailContents(a, less, x);
        TailContents(b, less, x);
      }
      AscendingUnique(a[1..], b[1..], less);
    }
  }

  lemma {:induction false} TailContents<T(!new)>(a: seq<T>, less: (T, T) -> bool, x: T)
    requires Strict(less) && Ascending(a, less) && a != []
    ensures x in a[1..] <==> x in a && x != a[0]
  {
    if x in a[1..] {
      var i :| 0 <= i < |a[1..]| && a[1..][i] == x;
      assert less(a[0], a[i + 1]);
    }
  }

  /** Hence sorting forgets the order of its input. */
  lemma {:induction false} SortForgetsOrder<T(!new)>(a: seq<T>, b: seq<T>, less: (T, T) -> bool)
    requires Strict(less) && Decided(a, less) && Decided(b, less)
    requires |a| == |b| && forall x :: x in a <==> x in b
    ensures Sort(a, less) == Sort(b, less)
  {
    SortAscends(a, less);
    SortAscends(b, less);
    SortContents(a, less);
    SortContents(b, less);
    AscendingUnique(Sort(a, less), Sort(b, less), less);
  }

  // ------------------------------------------------------ strings, as `<` compares them

  predicate LexLess(a: string, b: string) {
    b != [] && (a == [] || a[0] < b[0] || (a[0] == b[0] && LexLess(a[1..], b[1..])))
  }

  /** `a` ends inside `b`, or has the smaller character where the two first differ. */
  predicate DiffersAt(a: string, b: string, k: nat) {
    k <= |a| && k < |b| && a[..k] == b[..k] && (k == |a| || a[k] < b[k])
  }

  lemma {:induction false} LexIsFirstDifference(a: string, b: string)
    ensures LexLess(a, b) <==> exists k: nat :: DiffersAt(a, b, k)
  {
    if a == [] || b == [] || a[0] != b[0] {
      assert LexLess(a, b) ==> DiffersAt(a, b, 0);
      forall k: nat ensures DiffersAt(a, b, k) && k > 0 ==> a != [] && b != [] && a[0] == b[0] {
        SamePrefix(a, b, k);
      }
    } else {
      LexIsFirstDifference(a[1..], b[1..]);
      forall k: nat ensures DiffersAt(a[1..], b[1..], k) <==> DiffersAt(a, b, k + 1) {
        SharedFirst(a, b, k);
      }
      assert !DiffersAt(a, b, 0);
      if exists k: nat :: DiffersAt(a, b, k) {
        var k: nat :| DiffersAt(a, b, k);
        assert DiffersAt(a[1..], b[1..], k - 1);
      }
    }
  }

  lemma {:induction false} SamePrefix(a: string, b: string, k: nat)
    ensures DiffersAt(a, b, k) && k > 0 ==> a != [] && b != [] && a[0] == b[0]
  {
    assert DiffersAt(a, b, k) && k > 0 ==> a[..k][0] == a[0] && b[..k][0] == b[0];
  }

  lemma {:induction false} SharedFirst(a: string, b: string, k: nat)
    requires a != [] && b != [] && a[0] == b[0]
    ensures DiffersAt(a[1..], b[1..], k) <==> DiffersAt(a, b, k + 1)
  {
    if k < |a| && k < |b| {
      assert a[..k + 1] == [a[0]] + a[1..][..k] && b[..k + 1] == [b[0]] + b[1..][..k];
      assert a[..k + 1][1..] == a[1..][..k] && b[..k + 1][1..] == b[1..][..k];
    }
  }

  lemma {:induction false} LexTransitive(a: string, b: string, c: string)
    requires LexLess(a, b) && LexLess(b, c)
    ensures LexLess(a, c)
  {
    if a != [] && a[0] == b[0] && b[0] == c[0] {
      LexTransitive(a[1..], b[1..], c[1..]);
    }
  }

  lemma {:induction false} LexIrreflexive(a: string)
    ensures !LexLess(a, a)
  {
    if a != [] {
      LexIrreflexive(a[1..]);
    }
  }

  lemma {:induction false} LexTotal(a: string, b: string)
    ensures a == b || LexLess(a, b) || LexLess(b, a)
  {
    if a != [] && b != [] && a[0] == b[0] {
      LexTotal(a[1..], b[1..]);
      assert a == [a[0]] + a[1..] && b == [b[0]] + b[1..];
    }
  }

  lemma {:induction false} LexStrict()
    ensures Strict(LexLess)
  {
    forall a ensures !LexLess(a, a) {
      LexIrreflexive(a);
    }
    forall a, b, c | LexLess(a, b) && LexLess(b, c) ensures LexLess(a, c) {
      LexTransitive(a, b, c);
    }
  }

  // ---------------------------------------------------------------- permutations

  lemma {:induction false} PermutationContents<T>(a: seq<T>, b: seq<T>)
    requires multiset(a) == multiset(b)
    ensures |a| == |b| && forall x :: x in a <==> x in b
  {
    assert |multiset(a)| == |multiset(b)|;
    forall x ensures x in a <==> x in b {
      assert x in multiset(a) <==> x in multiset(b);
    }
  }

  lemma {:induction false} RepeatedMeansTwice<T>(a: seq<T>, i: nat, j: nat)
    requires i < j < |a| && a[i] == a[j]
    ensures multiset(a)[a[i]] >= 2
  {
    assert a == a[..j] + [a[j]] + a[j + 1..];
    assert a[i] in a[..j];
    assert a[i] in multiset(a[..j]);
  }

  lemma {:induction false} TwiceMeansRepeated<T>(a: seq<T>, x: T) returns (i: nat, j: nat)
    requires multiset(a)[x] >= 2
    ensures i < j < |a| && a[i] == x && a[j] == x
  {
    assert x in multiset(a);
    assert a == a[..|a| - 1] + [a[|a| - 1]];
    if a[|a| - 1] == x {
      j := |a| - 1;
      assert x in multiset(a[..j]);
      i :| 0 <= i < j && a[i] == x;
    } else {
      i, j := TwiceMeansRepeated(a[..|a| - 1], x);
    }
  }
}
