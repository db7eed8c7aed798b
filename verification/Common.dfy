/** Vocabulary shared by the modules: optional values, sequences without
    repetitions, and the JavaScript `Map`, whose iteration order is the order in
    which keys were first inserted. */
module Common {

  datatype Option<+T> = None | Some(value: T)
  {
    function GetOr(default: T): T {
      if Some? then value else default
    }
  }

  const MINUTE_MS: int := 60_000

  /** `Number.MAX_SAFE_INTEGER`. */
  const MAX_SAFE_INTEGER: int := 9_007_199_254_740_991

  predicate SafeInteger(n: int) {
    -MAX_SAFE_INTEGER <= n <= MAX_SAFE_INTEGER
  }

  ghost predicate NoDuplicates<T>(xs: seq<T>) {
    forall i, j :: 0 <= i < j < |xs| ==> xs[i] != xs[j]
  }

  /** The smallest element of a set, as the source's scans over map keys find it. */
  ghost function Least(s: set<int>): (least: int)
    requires s != {}
    ensures least in s && forall x <- s :: least <= x
  {
    var x := Element(s);
    LeastAt(s, x);
    var least :| IsLeast(s, least);
    least
  }

  ghost predicate IsLeast(s: set<int>, least: int) {
    least in s && forall x <- s :: least <= x
  }

  ghost function Element(s: set<int>): (x: int)
    requires s != {}
    ensures x in s
  {
    assert (forall z :: z !in s) ==> s <= {};
    var x :| x in s;
    x
  }

  lemma {:induction false} LeastAt(s: set<int>, x: int)
    requires x in s
    ensures exists least :: IsLeast(s, least)
  {
    var rest := s - {x};
    assert forall z <- s :: z == x || z in rest;
    if rest == {} {
      assert IsLeast(s, x);
    } else {
      LeastAt(rest, Element(rest));
      var y :| IsLeast(rest, y);
      assert IsLeast(s, if x <= y then x else y);
    }
  }
}
