/** Sums over a sequence, and why the order of the sequence does not matter. */
module Sums {

  function Sum<A(!new)>(f: A -> nat, s: seq<A>): nat {
    if s == [] then 0 else Sum(f, s[..|s| - 1]) + f(s[|s| - 1])
  }

  lemma {:induction false} SumConcat<A(!new)>(f: A -> nat, s: seq<A>, t: seq<A>)
    ensures Sum(f, s + t) == Sum(f, s) + Sum(f, t)
  {
    if t == [] {
      assert s + t == s;
    } else {
      assert (s + t)[..|s + t| - 1] == s + t[..|t| - 1];
      SumConcat(f, s, t[..|t| - 1]);
    }
  }

  lemma {:induction false} SumPermutation<A(!new)>(f: A -> nat, s: seq<A>, t: seq<A>)
    requires multiset(s) == multiset(t)
    ensures Sum(f, s) == Sum(f, t)
    decreases |s|
  {
    if s == [] {
      assert |multiset(t)| == 0;
    } else {
      var init, x := s[..|s| - 1], s[|s| - 1];
      assert s == init + [x];
      assert x in multiset(t);
      var i :| 0 <= i < |t| && t[i] == x;
      var before, after := t[..i], t[i + 1..];
      assert t == before + [x] + after;
      assert multiset(init) == multiset(s) - multiset{x};
      assert multiset(before + after) == multiset(t) - multiset{x};
      SumPermutation(f, init, before + after);
      SumConcat(f, before + [x], after);
      SumConcat(f, before, after);
    }
  }

  lemma {:induction false} SumPositive<A(!new)>(f: A -> nat, xs: seq<A>)
    requires Sum(f, xs) > 0
    ensures exists x :: x in xs && f(x) > 0
  {
    if f(xs[|xs| - 1]) == 0 {
      SumPositive(f, xs[..|xs| - 1]);
      var x :| x in xs[..|xs| - 1] && f(x) > 0;
      assert x in xs;
    }
  }

  lemma {:induction false} SumZero<A(!new)>(f: A -> nat, xs: seq<A>)
    requires forall x :: x in xs ==> f(x) == 0
    ensures Sum(f, xs) == 0
  {
    if xs != [] {
      var init, last := xs[..|xs| - 1], xs[|xs| - 1];
      assert last in xs && forall x :: x in init ==> x in xs;
      SumZero(f, init);
    }
  }

  lemma {:induction false} SumAtLeast<A(!new)>(f: A -> nat, xs: seq<A>, x: A)
    requires x in xs
    ensures Sum(f, xs) >= f(x)
  {
    var init, last := xs[..|xs| - 1], xs[|xs| - 1];
    assert xs == init + [last];
    if x in init {
      SumAtLeast(f, init, x);
    }
  }

  /** Only the values on the elements matter. */
  lemma {:induction false} SumCongruent<A(!new)>(f: A -> nat, g: A -> nat, xs: seq<A>)
    requires forall x :: x in xs ==> f(x) == g(x)
    ensures Sum(f, xs) == Sum(g, xs)
  {
    if xs != [] {
      var init, last := xs[..|xs| - 1], xs[|xs| - 1];
      assert last in xs && forall x :: x in init ==> x in xs;
      SumCongruent(f, g, init);
    }
  }

  function Count<T(==)>(s: seq<T>, x: T): nat {
    multiset(s)[x]
  }
}
