/** Small value types and sequence filtering, shared by the other modules. */
module Prelude {
  datatype Option<+T> = None | Some(value: T)

  datatype Result<+T, +E> = Ok(value: T) | Err(error: E)

  function Filter<T>(xs: seq<T>, keep: T -> bool): seq<T> {
    if xs == [] then []
    else if keep(xs[0]) then [xs[0]] + Filter(xs[1..], keep)
    else Filter(xs[1..], keep)
  }

  lemma {:induction false} FilterConcat<T>(a: seq<T>, b: seq<T>, keep: T -> bool)
    ensures Filter(a + b, keep) == Filter(a, keep) + Filter(b, keep)
  {
    if a == [] {
      assert a + b == b;
    } else {
      assert (a + b)[1..] == a[1..] + b;
      FilterConcat(a[1..], b, keep);
    }
  }

  lemma FilterSnoc<T>(xs: seq<T>, n: nat, keep: T -> bool)
    requires n < |xs|
    ensures Filter(xs[..n + 1], keep) == Filter(xs[..n], keep) + (if keep(xs[n]) then [xs[n]] else [])
  {
    assert xs[..n + 1] == xs[..n] + [xs[n]];
    FilterConcat(xs[..n], [xs[n]], keep);
  }

  lemma {:induction false} FilterMembers<T>(xs: seq<T>, keep: T -> bool)
    ensures forall x :: x in Filter(xs, keep) <==> x in xs && keep(x)
  {
    if xs != [] { FilterMembers(xs[1..], keep); }
  }

  lemma {:induction false} FilterAll<T>(xs: seq<T>, keep: T -> bool)
    requires forall x :: x in xs ==> keep(x)
    ensures Filter(xs, keep) == xs
  {
    if xs != [] { FilterAll(xs[1..], keep); }
  }

  lemma {:induction false} FilterNothing<T>(xs: seq<T>, keep: T -> bool)
    requires forall x :: x in xs ==> !keep(x)
    ensures Filter(xs, keep) == []
  {
    if xs != [] { FilterNothing(xs[1..], keep); }
  }

  // Filtering by a stronger test afterwards forgets the weaker one.
  lemma {:induction false} FilterTwice<T>(xs: seq<T>, weak: T -> bool, strong: T -> bool)
    requires forall x :: x in xs && strong(x) ==> weak(x)
    ensures Filter(Filter(xs, weak), strong) == Filter(xs, strong)
  {
    if xs != [] {
      FilterTwice(xs[1..], weak, strong);
      if weak(xs[0]) { assert Filter(xs, weak)[1..] == Filter(xs[1..], weak); }
    }
  }

  function Reversed<T>(xs: seq<T>): seq<T> {
    if xs == [] then [] else [xs[|xs| - 1]] + Reversed(xs[..|xs| - 1])
  }

  lemma ReversedSnoc<T>(xs: seq<T>, x: T)
    ensures Reversed(xs + [x]) == [x] + Reversed(xs)
  {
    assert (xs + [x])[..|xs|] == xs;
  }

  lemma {:induction false} ReversedCons<T>(x: T, xs: seq<T>)
    ensures Reversed([x] + xs) == Reversed(xs) + [x]
  {
    if xs == [] {
      assert [x] + xs == [] + [x];
      ReversedSnoc([], x);
    } else {
      var init := xs[..|xs| - 1];
      assert [x] + xs == ([x] + init) + [xs[|xs| - 1]];
      ReversedSnoc([x] + init, xs[|xs| - 1]);
      ReversedCons(x, init);
    }
  }
}
