/** Result types and object keys shared by every other module. */
module Common {

  datatype Option<+T> = None | Some(value: T)

  datatype Result<+T> = Ok(value: T) | Err(error: Error)

  /** The errors the controller distinguishes; only `NotFound` is ever treated
      specially by a caller. `WriteFailed` is a refused API-server write. */
  datatype Error =
    | NotFound
    | GatewayNotReady
    | RouteNotAccepted
    | UnknownTarget
    | InvalidPolicy
    | InvalidRuleHost(host: string)
    | AlreadyReferenced
    | MultipleGatewayPolicies
    | LimitadorNotReady
    | WriteFailed

  datatype ObjectKey = ObjectKey(namespace: string, name: string)

  /** The first position of `x` in `a`, or `|a|` when it does not occur. */
  function IndexOfKey(a: seq<ObjectKey>, x: ObjectKey): (i: nat)
    ensures i <= |a|
    ensures x !in a[..i]
    ensures i < |a| <==> x in a
    ensures i < |a| ==> a[i] == x
  {
    if a == [] then 0
    else if a[0] == x then 0
    else
      var i := 1 + IndexOfKey(a[1..], x);
      assert a[..i] == [a[0]] + a[1..][..i - 1];
      assert a == [a[0]] + a[1..];
      i
  }

  method ContainsObjectKey(a: seq<ObjectKey>, x: ObjectKey) returns (found: bool)
    ensures found <==> x in a
  {
    for i := 0 to |a|
      invariant x !in a[..i]
    {
      if x == a[i] {
        return true;
      }
    }
    return false;
  }

  method FindObjectKey(a: seq<ObjectKey>, x: ObjectKey) returns (i: nat)
    ensures i <= |a| && x !in a[..i]
    ensures i < |a| ==> a[i] == x
    ensures i == IndexOfKey(a, x)
  {
    for k := 0 to |a|
      invariant x !in a[..k]
    {
      if x == a[k] {
        FirstPositionIsUnique(a, x, k);
        return k;
      }
    }
    FirstPositionIsUnique(a, x, |a|);
    return |a|;
  }

  lemma FirstPositionIsUnique(a: seq<ObjectKey>, x: ObjectKey, i: nat)
    requires i <= |a| && x !in a[..i]
    requires i < |a| ==> a[i] == x
    ensures i == IndexOfKey(a, x)
  {
    if i > 0 {
      assert a[0] == a[..i][0];
      assert a[1..][..i - 1] == a[..i][1..];
      FirstPositionIsUnique(a[1..], x, i - 1);
    }
  }

  ghost predicate NoDuplicates<T>(a: seq<T>) {
    forall i, j :: 0 <= i < j < |a| ==> a[i] != a[j]
  }

  /** The elements of a set in some order. */
  ghost function Listing<T(!new)>(keys: set<T>): (listing: seq<T>)
    ensures NoDuplicates(listing) && forall k :: k in listing <==> k in keys
  {
    if keys == {} then []
    else
      var k :| k in keys;
      Listing(keys - {k}) + [k]
  }

  lemma {:induction false} CountDistinct<T>(a: seq<T>, x: T)
    requires NoDuplicates(a)
    ensures multiset(a)[x] == if x in a then 1 else 0
  {
    if a != [] {
      CountDistinct(a[..|a| - 1], x);
      assert a == a[..|a| - 1] + [a[|a| - 1]];
    }
  }

  lemma SameMembersSameMultiset<T(!new)>(a: seq<T>, b: seq<T>)
    requires NoDuplicates(a) && NoDuplicates(b) && forall x :: x in a <==> x in b
    ensures multiset(a) == multiset(b)
  {
    forall x
      ensures multiset(a)[x] == multiset(b)[x]
    {
      CountDistinct(a, x);
      CountDistinct(b, x);
    }
  }

  lemma {:induction false} DistinctLength<T(!new)>(a: seq<T>, s: set<T>)
    requires NoDuplicates(a) && forall x :: x in a <==> x in s
    ensures |a| == |s|
  {
    if a == [] {
      assert s == {};
    } else {
      var init, last := a[..|a| - 1], a[|a| - 1];
      assert a == init + [last];
      DistinctLength(init, s - {last});
    }
  }
}
