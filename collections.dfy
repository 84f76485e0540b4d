/**
 * Go ranges over a map in an unspecified order.  The model's methods that do
 * so pick keys one at a time and report the order they used as a sequence
 * that enumerates the key set: every key once, nothing else.
 */
module Collections {

  predicate Distinct<T(==)>(xs: seq<T>) {
    forall i, j | 0 <= i < j < |xs| :: xs[i] != xs[j]
  }

  predicate Enumerates<T(==)>(xs: seq<T>, s: set<T>) {
    Distinct(xs) && (forall i | 0 <= i < |xs| :: xs[i] in s) && (forall x | x in s :: x in xs)
  }

  /** An enumeration has exactly as many elements as the set. */
  lemma {:induction false} EnumerationLength<T>(xs: seq<T>, s: set<T>)
    requires Enumerates(xs, s)
    ensures |xs| == |s|
    decreases |xs|
  {
    if xs != [] {
      var x := xs[|xs| - 1];
      var init := xs[..|xs| - 1];
      assert x !in init;
      assert forall y :: y in init <==> y in s - {x} by {
        assert xs == init + [x];
      }
      EnumerationLength(init, s - {x});
    } else {
      assert forall x :: x !in s;
      assert s == {};
    }
  }

  /** The only enumeration of a one-element set. */
  lemma {:induction false} EnumerationOfSingleton<T>(xs: seq<T>, x: T)
    requires Enumerates(xs, {x})
    ensures xs == [x]
  {
    EnumerationLength(xs, {x});
    assert xs[0] in {x};
  }

  /** Extending an enumeration of `s` by a new element enumerates `s + {x}`. */
  lemma {:induction false} EnumerationSnoc<T>(xs: seq<T>, s: set<T>, x: T)
    requires Enumerates(xs, s) && x !in s
    ensures Enumerates(xs + [x], s + {x})
  {
  }
}
