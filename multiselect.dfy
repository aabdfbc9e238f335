/**
  The multi-select toggle used by the "días disponibles" and "objetivos"
  questions: clicking an option that is selected removes it (the array's
  `filter`), clicking one that is not selected appends it (the spread).
*/
module MultiSelect {

  /** No value occurs twice. */
  predicate Distinct(xs: seq<string>) {
    forall i, j :: 0 <= i < j < |xs| ==> xs[i] != xs[j]
  }

  /** `xs.filter(y => y !== x)`: every occurrence of `x` dropped, the rest kept in order. */
  function Without(xs: seq<string>, x: string): (r: seq<string>)
    ensures forall y :: multiset(r)[y] == if y == x then 0 else multiset(xs)[y]
  {
    if xs == [] then []
    else
      assert xs == [xs[0]] + xs[1..];
      if xs[0] == x then Without(xs[1..], x) else [xs[0]] + Without(xs[1..], x)
  }

  /** The click handler of one option button. */
  function Toggle(xs: seq<string>, x: string): seq<string> {
    if x in xs then Without(xs, x) else xs + [x]
  }

  /** After a toggle an option is selected exactly when it was not before (for the clicked one) or was (for every other). */
  lemma ToggleMembership(xs: seq<string>, x: string, y: string)
    ensures y in Toggle(xs, x) <==> (if y == x then x !in xs else y in xs)
  {
    if x in xs {
      assert multiset(Toggle(xs, x))[y] == if y == x then 0 else multiset(xs)[y];
      assert y in Toggle(xs, x) <==> multiset(Toggle(xs, x))[y] > 0;
      assert y in xs <==> multiset(xs)[y] > 0;
    }
  }

  /** Toggling an option that is selected removes all its occurrences and keeps every other one. */
  lemma TogglePresent(xs: seq<string>, x: string)
    requires x in xs
    ensures x !in Toggle(xs, x)
    ensures forall y :: y != x ==> multiset(Toggle(xs, x))[y] == multiset(xs)[y]
    ensures |Toggle(xs, x)| < |xs|
  {
    var r := Toggle(xs, x);
    assert multiset(r)[x] == 0;
    assert multiset(xs)[x] > 0;
    var m := multiset{}[x := multiset(xs)[x]];
    assert multiset(xs) == multiset(r) + m;
    assert |multiset(xs)| == |multiset(r)| + |m|;
  }

  /** Toggling an option that is not selected appends it at the end. */
  lemma ToggleAbsent(xs: seq<string>, x: string)
    requires x !in xs
    ensures Toggle(xs, x) == xs + [x]
  {
  }

  /** Dropping a value that does not occur changes nothing. */
  lemma {:induction false} WithoutAbsent(xs: seq<string>, x: string)
    requires x !in xs
    ensures Without(xs, x) == xs
  {
    if xs != [] {
      WithoutAbsent(xs[1..], x);
    }
  }

  /** Filtering distributes over concatenation. */
  lemma {:induction false} WithoutAppend(xs: seq<string>, ys: seq<string>, x: string)
    ensures Without(xs + ys, x) == Without(xs, x) + Without(ys, x)
  {
    if xs == [] {
      assert xs + ys == ys;
    } else {
      assert (xs + ys)[0] == xs[0];
      assert (xs + ys)[1..] == xs[1..] + ys;
      WithoutAppend(xs[1..], ys, x);
    }
  }

  /** Clicking an unselected option twice gives back exactly the original selection. */
  lemma ToggleTwiceAbsent(xs: seq<string>, x: string)
    requires x !in xs
    ensures Toggle(Toggle(xs, x), x) == xs
  {
    assert x in xs + [x];
    WithoutAppend(xs, [x], x);
    WithoutAbsent(xs, x);
    assert Without([x], x) == [];
  }

  /** Clicking a selected option twice drops every copy of it and appends one copy at the end. */
  lemma ToggleTwicePresent(xs: seq<string>, x: string)
    requires x in xs
    ensures Toggle(Toggle(xs, x), x) == Without(xs, x) + [x]
  {
    TogglePresent(xs, x);
  }

  /** Filtering keeps a duplicate-free list duplicate-free. */
  lemma {:induction false} WithoutDistinct(xs: seq<string>, x: string)
    requires Distinct(xs)
    ensures Distinct(Without(xs, x))
  {
    if xs != [] {
      var tail := xs[1..];
      assert Distinct(tail) by {
        forall i, j | 0 <= i < j < |tail| ensures tail[i] != tail[j] {
          assert tail[i] == xs[i + 1] && tail[j] == xs[j + 1];
        }
      }
      WithoutDistinct(tail, x);
      if xs[0] != x {
        var rest := Without(tail, x);
        assert xs[0] !in tail by {
          forall j | 0 <= j < |tail| ensures tail[j] != xs[0] {
            assert tail[j] == xs[j + 1];
          }
        }
        assert multiset(rest)[xs[0]] == multiset(tail)[xs[0]] == 0;
        assert xs[0] !in rest;
        var r := [xs[0]] + rest;
        forall i, j | 0 <= i < j < |r| ensures r[i] != r[j] {
          if i == 0 {
            assert r[j] == rest[j - 1];
          } else {
            assert r[i] == rest[i - 1] && r[j] == rest[j - 1];
          }
        }
      }
    }
  }

  /** Toggling never introduces a duplicate into a duplicate-free selection. */
  lemma ToggleDistinct(xs: seq<string>, x: string)
    requires Distinct(xs)
    ensures Distinct(Toggle(xs, x))
  {
    if x in xs {
      WithoutDistinct(xs, x);
    } else {
      var r := xs + [x];
      forall i, j | 0 <= i < j < |r| ensures r[i] != r[j] {
        if j == |xs| {
          assert r[i] == xs[i];
        } else {
          assert r[i] == xs[i] && r[j] == xs[j];
        }
      }
    }
  }

  /** A selection: no option twice, and every entry one of the offered options. */
  predicate Selection(xs: seq<string>, options: seq<string>) {
    Distinct(xs) && forall i :: 0 <= i < |xs| ==> xs[i] in options
  }

  /** Clicking an offered option turns a selection into a selection. */
  lemma ToggleKeepsSelection(xs: seq<string>, options: seq<string>, x: string)
    requires Selection(xs, options)
    requires x in options
    ensures Selection(Toggle(xs, x), options)
  {
    ToggleDistinct(xs, x);
    var r := Toggle(xs, x);
    forall i | 0 <= i < |r| ensures r[i] in options {
      ToggleMembership(xs, x, r[i]);
      if r[i] != x {
        var j :| 0 <= j < |xs| && xs[j] == r[i];
      }
    }
  }
}
