/** Lists made of the parts of other elements, put one behind the other; loops that
    append what each element contributes are specified by them. */
module Concatenations {
  import opened Sums

  function Lengths<A(!new), B>(part: A -> seq<B>): A -> nat {
    x => |part(x)|
  }

  /** Where the part of the `i`-th element begins. */
  function Offset<A(!new), B>(part: A -> seq<B>, xs: seq<A>, i: nat): nat
    requires i <= |xs|
  {
    Sum(Lengths(part), xs[..i])
  }

  /** The part of the `i`-th element stands, complete and in its order, where those of
      the elements before it end. */
  ghost predicate StandsAt<A(!new), B>(r: seq<B>, part: A -> seq<B>, xs: seq<A>, i: nat)
    requires i < |xs|
  {
    var n := Offset(part, xs, i);
    n + |part(xs[i])| <= |r| && r[n..n + |part(xs[i])|] == part(xs[i])
  }

  /** `r` is the parts of the elements one behind the other, and nothing else. */
  ghost predicate Concatenates<A(!new), B>(r: seq<B>, part: A -> seq<B>, xs: seq<A>) {
    |r| == Offset(part, xs, |xs|) && forall i :: 0 <= i < |xs| ==> StandsAt(r, part, xs, i)
  }

  lemma OffsetsStay<A(!new), B>(part: A -> seq<B>, xs: seq<A>, x: A)
    ensures forall i :: 0 <= i <= |xs| ==> Offset(part, xs + [x], i) == Offset(part, xs, i)
    ensures Offset(part, xs + [x], |xs| + 1) == Offset(part, xs, |xs|) + |part(x)|
  {
    assert forall i :: 0 <= i <= |xs| ==> (xs + [x])[..i] == xs[..i];
    assert (xs + [x])[..|xs| + 1] == xs + [x] && xs[..|xs|] == xs;
    assert (xs + [x])[..|xs|] == xs;
  }

  lemma {:induction false} EndsBefore<A(!new), B>(part: A -> seq<B>, xs: seq<A>, i: nat)
    requires i < |xs|
    ensures Offset(part, xs, i) + |part(xs[i])| <= Offset(part, xs, |xs|)
  {
    var init, last := xs[..|xs| - 1], xs[|xs| - 1];
    assert xs == init + [last];
    OffsetsStay(part, init, last);
    if i < |init| {
      EndsBefore(part, init, i);
    }
  }

  lemma ConcatenatesNext<A(!new), B>(r: seq<B>, part: A -> seq<B>, xs: seq<A>, x: A)
    requires Concatenates(r, part, xs)
    ensures Concatenates(r + part(x), part, xs + [x])
  {
    OffsetsStay(part, xs, x);
    var q, ys := r + part(x), xs + [x];
    forall i | 0 <= i < |ys|
      ensures StandsAt(q, part, ys, i)
    {
      if i < |xs| {
        assert StandsAt(r, part, xs, i) && ys[i] == xs[i];
        var n := Offset(part, xs, i);
        assert q[n..n + |part(xs[i])|] == r[n..n + |part(xs[i])|];
      } else {
        assert q[|r|..|r| + |part(x)|] == part(x);
      }
    }
  }

  lemma ConcatenatesSplit<A(!new), B>(r: seq<B>, part: A -> seq<B>, xs: seq<A>, x: A)
    requires Concatenates(r, part, xs + [x])
    ensures var n := Offset(part, xs, |xs|);
      n <= |r| && r == r[..n] + part(x) && Concatenates(r[..n], part, xs)
  {
    OffsetsStay(part, xs, x);
    var n, ys := Offset(part, xs, |xs|), xs + [x];
    assert StandsAt(r, part, ys, |xs|) && r[n..|r|] == part(x);
    forall i | 0 <= i < |xs|
      ensures StandsAt(r[..n], part, xs, i)
    {
      assert StandsAt(r, part, ys, i) && ys[i] == xs[i];
      EndsBefore(part, xs, i);
      var k := Offset(part, xs, i);
      assert r[..n][k..k + |part(xs[i])|] == r[k..k + |part(xs[i])|];
    }
  }

  /** There is only one such list. */
  lemma {:induction false} ConcatenatesIsUnique<A(!new), B>(r: seq<B>, q: seq<B>, part: A -> seq<B>, xs: seq<A>)
    requires Concatenates(r, part, xs) && Concatenates(q, part, xs)
    ensures r == q
    decreases |xs|
  {
    if xs != [] {
      var init, last := xs[..|xs| - 1], xs[|xs| - 1];
      assert xs == init + [last];
      ConcatenatesSplit(r, part, init, last);
      ConcatenatesSplit(q, part, init, last);
      var n := Offset(part, init, |init|);
      ConcatenatesIsUnique(r[..n], q[..n], part, init);
    }
  }

  function Copies<A(!new), B(==)>(part: A -> seq<B>, b: B): A -> nat {
    x => Count(part(x), b)
  }

  /** Every element occurs as often as in the parts together. */
  lemma {:induction false} ConcatenatedCount<A(!new), B>(r: seq<B>, part: A -> seq<B>, xs: seq<A>, b: B)
    requires Concatenates(r, part, xs)
    ensures Count(r, b) == Sum(Copies(part, b), xs)
    decreases |xs|
  {
    if xs != [] {
      var init, last := xs[..|xs| - 1], xs[|xs| - 1];
      assert xs == init + [last];
      ConcatenatesSplit(r, part, init, last);
      var n := Offset(part, init, |init|);
      ConcatenatedCount(r[..n], part, init, b);
      assert Count(r, b) == Count(r[..n], b) + Count(part(last), b);
    }
  }

  lemma ConcatenatedMembers<A(!new), B>(r: seq<B>, part: A -> seq<B>, xs: seq<A>, b: B)
    requires Concatenates(r, part, xs)
    ensures b in r <==> exists x :: x in xs && b in part(x)
  {
    ConcatenatedCount(r, part, xs, b);
    if b in r {
      SumPositive(Copies(part, b), xs);
      var x :| x in xs && Copies(part, b)(x) > 0;
      assert b in part(x);
    }
    if x :| x in xs && b in part(x) {
      SumAtLeast(Copies(part, b), xs, x);
      assert Copies(part, b)(x) > 0;
    }
  }
}
