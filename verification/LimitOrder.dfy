/** pkg/rlptools/limit_index.go: the comparator on limits, the in-place sort
    under it, and the order-insensitive list comparison built from both.
    A nil slice and an empty slice are the same empty sequence here. */
module LimitOrder {

  datatype Limit = Limit(maxValue: int, seconds: int, conditions: seq<string>, variables: seq<string>)

  function CompareInts(a: int, b: int): int {
    if a > b then 1 else if a < b then -1 else 0
  }

  /** Go's `strings.Compare`, on sequences of characters. */
  function CompareStrings(a: string, b: string): int {
    if a == [] then (if b == [] then 0 else -1)
    else if b == [] then 1
    else if a[0] != b[0] then CompareInts(a[0] as int, b[0] as int)
    else CompareStrings(a[1..], b[1..])
  }

  /** The first non-zero comparison of two equally long lists. */
  function CompareLists(a: seq<string>, b: seq<string>): int
    requires |a| == |b|
  {
    if a == [] then 0
    else if CompareStrings(a[0], b[0]) != 0 then CompareStrings(a[0], b[0])
    else CompareLists(a[1..], b[1..])
  }

  function CompareSized(a: seq<string>, b: seq<string>): int {
    if |a| != |b| then CompareInts(|a|, |b|) else CompareLists(a, b)
  }

  function Lex(first: int, second: int): int {
    if first != 0 then first else second
  }

  function Compare(a: Limit, b: Limit): int {
    Lex(CompareInts(a.maxValue, b.maxValue),
        Lex(CompareInts(a.seconds, b.seconds),
            Lex(CompareSized(a.conditions, b.conditions), CompareSized(a.variables, b.variables))))
  }

  /** `a` may stand before `b`: the relation `Less` decides. */
  predicate Before(a: Limit, b: Limit) {
    Compare(a, b) >= 0
  }

  // ----- the comparator is a total order -----

  lemma {:induction false} StringsAntisymmetric(a: string, b: string)
    ensures CompareStrings(b, a) == -CompareStrings(a, b)
    ensures CompareStrings(a, b) == 0 <==> a == b
  {
    if a != [] && b != [] && a[0] == b[0] {
      StringsAntisymmetric(a[1..], b[1..]);
      assert a == [a[0]] + a[1..] && b == [b[0]] + b[1..];
    }
  }

  lemma {:induction false} StringsTransitive(a: string, b: string, c: string)
    requires CompareStrings(a, b) >= 0 && CompareStrings(b, c) >= 0
    ensures CompareStrings(a, c) >= 0
  {
    if a != [] && b != [] && c != [] && a[0] == b[0] == c[0] {
      StringsTransitive(a[1..], b[1..], c[1..]);
    }
  }

  lemma {:induction false} ListsAntisymmetric(a: seq<string>, b: seq<string>)
    requires |a| == |b|
    ensures CompareLists(b, a) == -CompareLists(a, b)
    ensures CompareLists(a, b) == 0 <==> a == b
  {
    if a != [] {
      StringsAntisymmetric(a[0], b[0]);
      ListsAntisymmetric(a[1..], b[1..]);
      assert a == [a[0]] + a[1..] && b == [b[0]] + b[1..];
    }
  }

  lemma {:induction false} ListsTransitive(a: seq<string>, b: seq<string>, c: seq<string>)
    requires |a| == |b| == |c|
    requires CompareLists(a, b) >= 0 && CompareLists(b, c) >= 0
    ensures CompareLists(a, c) >= 0
  {
    if a != [] {
      StringsAntisymmetric(a[0], b[0]);
      StringsAntisymmetric(b[0], c[0]);
      StringsAntisymmetric(a[0], c[0]);
      StringsTransitive(a[0], b[0], c[0]);
      if a[0] == b[0] == c[0] {
        ListsTransitive(a[1..], b[1..], c[1..]);
      }
    }
  }

  lemma SizedAntisymmetric(a: seq<string>, b: seq<string>)
    ensures CompareSized(b, a) == -CompareSized(a, b)
    ensures CompareSized(a, b) == 0 <==> a == b
  {
    if |a| == |b| {
      ListsAntisymmetric(a, b);
    }
  }

  lemma SizedTransitive(a: seq<string>, b: seq<string>, c: seq<string>)
    requires CompareSized(a, b) >= 0 && CompareSized(b, c) >= 0
    ensures CompareSized(a, c) >= 0
  {
    if |a| == |b| == |c| {
      ListsTransitive(a, b, c);
    }
  }

  /** `Less` is reflexive, total, antisymmetric and transitive. */
  lemma BeforeIsTotalOrder(a: Limit, b: Limit, c: Limit)
    ensures Before(a, a)
    ensures Before(a, b) || Before(b, a)
    ensures Before(a, b) && Before(b, a) ==> a == b
    ensures Before(a, b) && Before(b, c) ==> Before(a, c)
  {
    SizedAntisymmetric(a.conditions, a.conditions);
    SizedAntisymmetric(a.variables, a.variables);
    SizedAntisymmetric(a.conditions, b.conditions);
    SizedAntisymmetric(a.variables, b.variables);
    if Before(a, b) && Before(b, c) {
      BeforeTransitive(a, b, c);
    }
  }

  lemma BeforeTransitive(a: Limit, b: Limit, c: Limit)
    requires Before(a, b) && Before(b, c)
    ensures Before(a, c)
  {
    SizedAntisymmetric(a.conditions, b.conditions);
    SizedAntisymmetric(b.conditions, c.conditions);
    SizedAntisymmetric(a.conditions, c.conditions);
    if a.maxValue == b.maxValue == c.maxValue && a.seconds == b.seconds == c.seconds {
      if CompareSized(a.conditions, b.conditions) >= 0 && CompareSized(b.conditions, c.conditions) >= 0 {
        SizedTransitive(a.conditions, b.conditions, c.conditions);
      }
      if a.conditions == b.conditions == c.conditions {
        SizedTransitive(a.variables, b.variables, c.variables);
      }
    }
  }

  // ----- the sort and the comparison -----

  ghost predicate Sorted(l: seq<Limit>) {
    forall i, j :: 0 <= i < j < |l| ==> Before(l[i], l[j])
  }

  /** The comparator as the source writes it: two early-return loops. */
  method Less(l: array<Limit>, i: nat, j: nat) returns (less: bool)
    requires i < l.Length && j < l.Length
    ensures less == Before(l[i], l[j])
  {
    var a, b := l[i], l[j];
    if a.maxValue != b.maxValue {
      return a.maxValue > b.maxValue;
    }
    if a.seconds != b.seconds {
      return a.seconds > b.seconds;
    }
    if |a.conditions| != |b.conditions| {
      return |a.conditions| > |b.conditions|;
    }
    for idx := 0 to |a.conditions|
      invariant CompareLists(a.conditions, b.conditions) == CompareLists(a.conditions[idx..], b.conditions[idx..])
    {
      var c := CompareStrings(a.conditions[idx], b.conditions[idx]);
      StringsAntisymmetric(a.conditions[idx], b.conditions[idx]);
      if c > 0 {
        return true;
      } else if c < 0 {
        return false;
      }
    }
    if |a.variables| != |b.variables| {
      return |a.variables| > |b.variables|;
    }
    for idx := 0 to |a.variables|
      invariant CompareLists(a.variables, b.variables) == CompareLists(a.variables[idx..], b.variables[idx..])
    {
      var c := CompareStrings(a.variables[idx], b.variables[idx]);
      if c > 0 {
        return true;
      } else if c < 0 {
        return false;
      }
    }
    return true;
  }

  method Swap(l: array<Limit>, i: nat, j: nat)
    requires i < l.Length && j < l.Length
    modifies l
    ensures l[..] == old(l[..])[i := old(l[j])][j := old(l[i])]
    ensures multiset(l[..]) == old(multiset(l[..]))
  {
    l[i], l[j] := l[j], l[i];
  }

  /** Sorts in place, moving each element down while the comparator says so. */
  method Sort(l: array<Limit>)
    modifies l
    ensures Sorted(l[..])
    ensures multiset(l[..]) == old(multiset(l[..]))
  {
    var i := 0;
    while i < l.Length
      invariant i <= l.Length
      invariant Sorted(l[..i])
      invariant multiset(l[..]) == old(multiset(l[..]))
    {
      SinkDown(l, i);
      i := i + 1;
    }
    assert l[..] == l[..l.Length];
  }

  method SinkDown(l: array<Limit>, i: nat)
    requires i < l.Length && Sorted(l[..i])
    modifies l
    ensures Sorted(l[..i + 1])
    ensures multiset(l[..]) == old(multiset(l[..]))
  {
    var j := i;
    while j > 0
      invariant j <= i
      invariant forall p, q :: 0 <= p < q <= i && q != j ==> Before(l[p], l[q])
      invariant multiset(l[..]) == old(multiset(l[..]))
    {
      var less := Less(l, j, j - 1);
      if !less {
        BeforeIsTotalOrder(l[j], l[j - 1], l[j]);
        forall p | 0 <= p < j
          ensures Before(l[p], l[j])
        {
          if p < j - 1 {
            BeforeTransitive(l[p], l[j - 1], l[j]);
          }
        }
        return;
      }
      Swap(l, j, j - 1);
      j := j - 1;
    }
  }

  lemma SameHead(a: seq<Limit>, b: seq<Limit>)
    requires Sorted(a) && Sorted(b) && multiset(a) == multiset(b) && a != []
    ensures b != [] && a[0] == b[0]
  {
    assert |multiset(a)| == |multiset(b)|;
    assert a[0] in multiset(b) && b[0] in multiset(a);
    BeforeIsTotalOrder(a[0], b[0], a[0]);
    assert Before(a[0], b[0]) && Before(b[0], a[0]);
  }

  /** Sorted permutations of one another are equal. */
  lemma {:induction false} SortedIsUnique(a: seq<Limit>, b: seq<Limit>)
    requires Sorted(a) && Sorted(b) && multiset(a) == multiset(b)
    ensures a == b
  {
    if a == [] {
      assert |multiset(b)| == 0;
    } else {
      SameHead(a, b);
      assert a == [a[0]] + a[1..] && b == [b[0]] + b[1..];
      assert multiset(a[1..]) == multiset(a) - multiset{a[0]};
      assert multiset(b[1..]) == multiset(b) - multiset{b[0]};
      SortedIsUnique(a[1..], b[1..]);
    }
  }

  /** True exactly when the lists hold the same limits the same number of times.
      The arguments are copied first, so the caller's lists keep their order. */
  method SameLimitList(a: seq<Limit>, b: seq<Limit>) returns (same: bool)
    ensures same <==> multiset(a) == multiset(b)
  {
    if |a| != |b| {
      assert |multiset(a)| == |a| && |multiset(b)| == |b|;
      return false;
    }
    var aCopy := new Limit[|a|](i requires 0 <= i < |a| => a[i]);
    var bCopy := new Limit[|b|](i requires 0 <= i < |b| => b[i]);
    assert aCopy[..] == a && bCopy[..] == b;
    Sort(aCopy);
    Sort(bCopy);
    assert multiset(aCopy[..]) == multiset(a) && multiset(bCopy[..]) == multiset(b);
    if multiset(a) == multiset(b) {
      SortedIsUnique(aCopy[..], bCopy[..]);
    }
    return aCopy[..] == bCopy[..];
  }
}
