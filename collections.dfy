/** Sequences without repetitions, and the conversion of a hash set into a list. */
module Collections {

  /** The set of the elements of `xs`. */
  ghost function Elements<T>(xs: seq<T>): set<T>
  {
    set x | x in xs
  }

  /** No element of `xs` occurs twice. */
  ghost predicate Distinct<T>(xs: seq<T>)
  {
    forall i, j :: 0 <= i < j < |xs| ==> xs[i] != xs[j]
  }

  /** A list without repetitions holds as many entries as it has distinct elements. */
  lemma {:induction false} DistinctCardinality<T>(xs: seq<T>)
    requires Distinct(xs)
    ensures |Elements(xs)| == |xs|
  {
    if xs != [] {
      assert Distinct(xs[1..]) by {
        forall i, j | 0 <= i < j < |xs[1..]| ensures xs[1..][i] != xs[1..][j] {
          assert xs[1..][i] == xs[i + 1] && xs[1..][j] == xs[j + 1];
        }
      }
      DistinctCardinality(xs[1..]);
      assert Elements(xs) == {xs[0]} + Elements(xs[1..]) by {
        assert xs == [xs[0]] + xs[1..];
      }
      assert xs[0] !in Elements(xs[1..]);
    }
  }

  /** A list without repetitions whose only element is `x` is `[x]`. */
  lemma SingletonList<T>(xs: seq<T>, x: T)
    requires Distinct(xs) && Elements(xs) == {x}
    ensures xs == [x]
  {
    DistinctCardinality(xs);
    assert |xs| == 1;
    assert xs[0] in Elements(xs);
  }

  /** `HashSet<T>.ToList()`: every element of `s` exactly once, in an order the hash set chooses. */
  method ToList<T(==)>(s: set<T>) returns (xs: seq<T>)
    ensures Distinct(xs)
    ensures Elements(xs) == s
    ensures |xs| == |s|
  {
    xs := [];
    var rest := s;
    while rest != {}
      invariant Distinct(xs)
      invariant Elements(xs) !! rest
      invariant Elements(xs) + rest == s
      invariant |xs| + |rest| == |s|
      decreases rest
    {
      var x :| x in rest;
      assert Elements(xs + [x]) == Elements(xs) + {x};
      xs := xs + [x];
      rest := rest - {x};
    }
  }
}
