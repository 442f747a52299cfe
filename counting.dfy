/**
 * Cardinalities of finite sets, for stating how many times a value occurs
 * in a query's result: once per source row, or once per group.
 */
module Counting {

  /** Some element of a non-empty set. */
  lemma Pick<A>(s: set<A>) returns (x: A)
    requires s != {}
    ensures x in s
  {
    x :| x in s;
  }

  /** The positions of `xs` whose element satisfies `p`. */
  function Indices<T>(xs: seq<T>, p: T -> bool): set<int>
  {
    set i | 0 <= i < |xs| && p(xs[i])
  }

  /** Shifting a set of positions by one keeps its size. */
  lemma {:induction false} Shifted(s: set<int>)
    ensures |set i | i in s :: i + 1| == |s|
  {
    if s != {} {
      var x := Pick(s);
      var rest := s - {x};
      Shifted(rest);
      var image := set i | i in s :: i + 1;
      var restImage := set i | i in rest :: i + 1;
      forall j | j in image ensures j in restImage || j == x + 1 {
        assert j - 1 in s;
        if j - 1 != x {
          assert j - 1 in rest;
        }
      }
      assert x + 1 in image;
      forall j | j in restImage ensures j in image {
        assert j - 1 in rest;
      }
      assert image == restImage + {x + 1};
    }
  }

  /** Counting the positions of a non-empty sequence: the head, then the tail. */
  lemma IndicesCons<T>(xs: seq<T>, p: T -> bool)
    requires xs != []
    ensures |Indices(xs, p)| == (if p(xs[0]) then 1 else 0) + |Indices(xs[1..], p)|
  {
    var tail := Indices(xs[1..], p);
    var shifted := set i | i in tail :: i + 1;
    Shifted(tail);
    var head: set<int> := if p(xs[0]) then {0} else {};
    forall i | i in Indices(xs, p) ensures i in head + shifted {
      if i != 0 {
        assert xs[1..][i - 1] == xs[i];
        assert i - 1 in tail;
      }
    }
    forall i | i in shifted ensures i in Indices(xs, p) {
      assert i - 1 in tail;
      assert xs[1..][i - 1] == xs[i];
    }
    assert Indices(xs, p) == head + shifted;
    assert head * shifted == {};
  }
}
