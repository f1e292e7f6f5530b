/** pkg/rlptools/gateway_utils.go: the list of policy references a gateway
    carries in an annotation, and the split of gateways into new, same and left. */
module GatewayRefs {
  import opened Common

  /** The reference annotation: missing, not parseable as JSON, or a list of keys. */
  datatype RefAnnotation = Absent | Malformed | Listed(keys: seq<ObjectKey>)

  /** A gateway as read from the API server. */
  datatype Snapshot = Snapshot(key: ObjectKey, listeners: seq<Option<string>>, annotation: RefAnnotation)

  function RefKeys(a: RefAnnotation): seq<ObjectKey> {
    if a.Listed? then a.keys else []
  }

  function RemoveFirst(keys: seq<ObjectKey>, k: ObjectKey): seq<ObjectKey> {
    var i := IndexOfKey(keys, k);
    if i == |keys| then keys else keys[..i] + keys[i + 1..]
  }

  function AddRef(a: RefAnnotation, k: ObjectKey): RefAnnotation {
    match a
    case Absent => Listed([k])
    case Malformed => Malformed
    case Listed(keys) => if k in keys then a else Listed(keys + [k])
  }

  function DeleteRef(a: RefAnnotation, k: ObjectKey): RefAnnotation {
    if a.Listed? && k in a.keys then Listed(RemoveFirst(a.keys, k)) else a
  }

  class GatewayWrapper {
    const key: ObjectKey
    const listeners: seq<Option<string>>
    var annotation: RefAnnotation

    constructor (s: Snapshot)
      ensures Snap() == s
    {
      key := s.key;
      listeners := s.listeners;
      annotation := s.annotation;
    }

    ghost function Snap(): Snapshot
      reads this
    {
      Snapshot(key, listeners, annotation)
    }

    function RLPRefs(): seq<ObjectKey>
      reads this
    {
      RefKeys(annotation)
    }

    method ContainsRLP(rlpKey: ObjectKey) returns (found: bool)
      ensures found <==> rlpKey in RefKeys(annotation)
    {
      if !annotation.Listed? {
        return false;
      }
      found := ContainsObjectKey(annotation.keys, rlpKey);
    }

    /** True exactly when the annotation changed. */
    method AddRLP(rlpKey: ObjectKey) returns (added: bool)
      modifies this
      ensures annotation == AddRef(old(annotation), rlpKey)
      ensures added <==> annotation != old(annotation)
    {
      if annotation.Absent? {
        annotation := Listed([rlpKey]);
        return true;
      }
      if annotation.Malformed? {
        return false;
      }
      var found := ContainsObjectKey(annotation.keys, rlpKey);
      if found {
        return false;
      }
      assert |annotation.keys + [rlpKey]| != |annotation.keys|;
      annotation := Listed(annotation.keys + [rlpKey]);
      return true;
    }

    /** True exactly when the annotation changed. */
    method DeleteRLP(rlpKey: ObjectKey) returns (deleted: bool)
      modifies this
      ensures annotation == DeleteRef(old(annotation), rlpKey)
      ensures deleted <==> annotation != old(annotation)
    {
      if !annotation.Listed? {
        return false;
      }
      var refs := annotation.keys;
      var refID := FindObjectKey(refs, rlpKey);
      if refID != |refs| {
        assert |refs[..refID] + refs[refID + 1..]| != |refs|;
        annotation := Listed(refs[..refID] + refs[refID + 1..]);
        return true;
      }
      return false;
    }
  }

  // ----- what the list edits mean -----

  /** The list without any occurrence of `k`, everything else in its order. */
  ghost function Others(keys: seq<ObjectKey>, k: ObjectKey): seq<ObjectKey> {
    if keys == [] then []
    else Others(keys[..|keys| - 1], k) + if keys[|keys| - 1] == k then [] else [keys[|keys| - 1]]
  }

  lemma {:induction false} OthersConcat(a: seq<ObjectKey>, b: seq<ObjectKey>, k: ObjectKey)
    ensures Others(a + b, k) == Others(a, k) + Others(b, k)
  {
    if b == [] {
      assert a + b == a;
    } else {
      assert (a + b)[..|a + b| - 1] == a + b[..|b| - 1];
      OthersConcat(a, b[..|b| - 1], k);
    }
  }

  lemma {:induction false} OthersMembers(keys: seq<ObjectKey>, k: ObjectKey)
    ensures forall x :: x in Others(keys, k) <==> x in keys && x != k
    ensures k !in keys ==> Others(keys, k) == keys
  {
    if keys != [] {
      OthersMembers(keys[..|keys| - 1], k);
      assert keys == keys[..|keys| - 1] + [keys[|keys| - 1]];
    }
  }

  /** Deleting a reference leaves the other keys in their order. */
  lemma RemoveKeepsOthers(keys: seq<ObjectKey>, k: ObjectKey)
    ensures Others(RemoveFirst(keys, k), k) == Others(keys, k)
  {
    var i := IndexOfKey(keys, k);
    if i < |keys| {
      assert keys == keys[..i] + [k] + keys[i + 1..];
      OthersWithout(keys[..i], keys[i + 1..], k);
    }
  }

  lemma {:induction false} OthersWithout(a: seq<ObjectKey>, b: seq<ObjectKey>, k: ObjectKey)
    ensures Others(a + [k] + b, k) == Others(a + b, k)
  {
    if b == [] {
      assert a + [k] + b == a + [k] && a + b == a && (a + [k])[..|a|] == a;
    } else {
      var init := b[..|b| - 1];
      assert (a + [k] + b)[..|a + [k] + b| - 1] == a + [k] + init;
      assert (a + b)[..|a + b| - 1] == a + init;
      OthersWithout(a, init, k);
    }
  }

  /** On a list without repetitions it removes exactly that key. */
  lemma RemoveFromDistinct(keys: seq<ObjectKey>, k: ObjectKey)
    requires NoDuplicates(keys)
    ensures NoDuplicates(RemoveFirst(keys, k))
    ensures forall x :: x in RemoveFirst(keys, k) <==> x in keys && x != k
    ensures RemoveFirst(keys, k) == Others(keys, k)
  {
    var i := IndexOfKey(keys, k);
    if i < |keys| {
      CutMembers(keys, i);
    }
    RemoveKeepsOthers(keys, k);
    OthersMembers(RemoveFirst(keys, k), k);
  }

  lemma CutMembers(keys: seq<ObjectKey>, i: nat)
    requires NoDuplicates(keys) && i < |keys|
    ensures NoDuplicates(keys[..i] + keys[i + 1..])
    ensures forall x :: x in keys[..i] + keys[i + 1..] <==> x in keys && x != keys[i]
  {
    var r := keys[..i] + keys[i + 1..];
    forall j | 0 <= j < |r|
      ensures r[j] == keys[if j < i then j else j + 1]
    {
    }
    forall x | x in keys && x != keys[i]
      ensures x in r
    {
      var j :| 0 <= j < |keys| && keys[j] == x;
      assert r[if j < i then j else j - 1] == x;
    }
  }

  /** Adding a reference: the key is listed last if it was not listed, and the
      other keys stay, in their order, without new repetitions. */
  lemma AddRefMeaning(a: RefAnnotation, k: ObjectKey)
    requires !a.Malformed?
    ensures AddRef(a, k).Listed? && k in RefKeys(AddRef(a, k))
    ensures Others(RefKeys(AddRef(a, k)), k) == Others(RefKeys(a), k)
    ensures NoDuplicates(RefKeys(a)) ==> NoDuplicates(RefKeys(AddRef(a, k)))
    ensures forall x :: x in RefKeys(AddRef(a, k)) <==> x in RefKeys(a) || x == k
  {
    OthersConcat(RefKeys(a), [k], k);
    assert Others([k], k) == [];
  }

  // ----- new, same and left gateways -----

  function NewFilter(rlpKey: ObjectKey, targeted: seq<ObjectKey>): Snapshot -> bool {
    (s: Snapshot) => s.key in targeted && rlpKey !in RefKeys(s.annotation)
  }

  function SameFilter(rlpKey: ObjectKey, targeted: seq<ObjectKey>): Snapshot -> bool {
    (s: Snapshot) => s.key in targeted && rlpKey in RefKeys(s.annotation)
  }

  function LeftFilter(rlpKey: ObjectKey, targeted: seq<ObjectKey>): Snapshot -> bool {
    (s: Snapshot) => s.key !in targeted && rlpKey in RefKeys(s.annotation)
  }

  ghost function Select(items: seq<Snapshot>, keep: Snapshot -> bool): seq<Snapshot> {
    if items == [] then []
    else
      var last := items[|items| - 1];
      Select(items[..|items| - 1], keep) + if keep(last) then [last] else []
  }

  /** The objects `gws` currently read as the snapshots `snaps`. */
  ghost predicate Shows(gws: seq<GatewayWrapper>, snaps: seq<Snapshot>)
    reads gws
  {
    |gws| == |snaps| && forall i :: 0 <= i < |gws| ==> gws[i].Snap() == snaps[i]
  }

  method NewGateways(items: seq<GatewayWrapper>, ghost snaps: seq<Snapshot>, rlpKey: ObjectKey,
                     targeted: seq<ObjectKey>)
    returns (gws: seq<GatewayWrapper>)
    requires Shows(items, snaps)
    ensures Shows(gws, Select(snaps, NewFilter(rlpKey, targeted)))
    ensures forall g :: g in gws ==> g in items
  {
    gws := [];
    for i := 0 to |items|
      invariant Shows(gws, Select(snaps[..i], NewFilter(rlpKey, targeted)))
      invariant forall g :: g in gws ==> g in items
    {
      assert snaps[..i + 1][..i] == snaps[..i];
      var isTargeted := ContainsObjectKey(targeted, items[i].key);
      var contains := items[i].ContainsRLP(rlpKey);
      if isTargeted && !contains {
        gws := gws + [items[i]];
      }
    }
    assert snaps[..|items|] == snaps;
  }

  method SameGateways(items: seq<GatewayWrapper>, ghost snaps: seq<Snapshot>, rlpKey: ObjectKey,
                     targeted: seq<ObjectKey>)
    returns (gws: seq<GatewayWrapper>)
    requires Shows(items, snaps)
    ensures Shows(gws, Select(snaps, SameFilter(rlpKey, targeted)))
    ensures forall g :: g in gws ==> g in items
  {
    gws := [];
    for i := 0 to |items|
      invariant Shows(gws, Select(snaps[..i], SameFilter(rlpKey, targeted)))
      invariant forall g :: g in gws ==> g in items
    {
      assert snaps[..i + 1][..i] == snaps[..i];
      var isTargeted := ContainsObjectKey(targeted, items[i].key);
      var contains := items[i].ContainsRLP(rlpKey);
      if isTargeted && contains {
        gws := gws + [items[i]];
      }
    }
    assert snaps[..|items|] == snaps;
  }

  method LeftGateways(items: seq<GatewayWrapper>, ghost snaps: seq<Snapshot>, rlpKey: ObjectKey,
                     targeted: seq<ObjectKey>)
    returns (gws: seq<GatewayWrapper>)
    requires Shows(items, snaps)
    ensures Shows(gws, Select(snaps, LeftFilter(rlpKey, targeted)))
    ensures forall g :: g in gws ==> g in items
  {
    gws := [];
    for i := 0 to |items|
      invariant Shows(gws, Select(snaps[..i], LeftFilter(rlpKey, targeted)))
      invariant forall g :: g in gws ==> g in items
    {
      assert snaps[..i + 1][..i] == snaps[..i];
      var isTargeted := ContainsObjectKey(targeted, items[i].key);
      var contains := items[i].ContainsRLP(rlpKey);
      if !isTargeted && contains {
        gws := gws + [items[i]];
      }
    }
    assert snaps[..|items|] == snaps;
  }

  lemma {:induction false} SelectMembers(items: seq<Snapshot>, keep: Snapshot -> bool)
    ensures forall s :: s in Select(items, keep) <==> s in items && keep(s)
  {
    if items != [] {
      SelectMembers(items[..|items| - 1], keep);
      assert items == items[..|items| - 1] + [items[|items| - 1]];
    }
  }

  ghost function KeysOf(snaps: seq<Snapshot>): seq<ObjectKey> {
    seq(|snaps|, i requires 0 <= i < |snaps| => snaps[i].key)
  }

  ghost predicate DistinctKeys(snaps: seq<Snapshot>) {
    forall i, j :: 0 <= i < j < |snaps| ==> snaps[i].key != snaps[j].key
  }

  lemma {:induction false} SelectDistinct(items: seq<Snapshot>, keep: Snapshot -> bool)
    requires DistinctKeys(items)
    ensures DistinctKeys(Select(items, keep))
  {
    if items != [] {
      var init, last := items[..|items| - 1], items[|items| - 1];
      SelectDistinct(init, keep);
      SelectMembers(init, keep);
      forall s | s in Select(init, keep)
        ensures s.key != last.key
      {
        var i :| 0 <= i < |init| && init[i] == s;
        assert items[i] == s;
      }
    }
  }

  /** New, same and left are pairwise disjoint by key and together are exactly the
      listed gateways that are targeted or hold the policy's key (`SelectedKeys`:
      they name no other gateway). */
  lemma DiffIsPartition(items: seq<Snapshot>, rlpKey: ObjectKey, targeted: seq<ObjectKey>)
    requires DistinctKeys(items)
    ensures
      var new' := KeysOf(Select(items, NewFilter(rlpKey, targeted)));
      var same := KeysOf(Select(items, SameFilter(rlpKey, targeted)));
      var left := KeysOf(Select(items, LeftFilter(rlpKey, targeted)));
      forall s :: s in items ==>
        && (s.key in new' <==> s.key in targeted && rlpKey !in RefKeys(s.annotation))
        && (s.key in same <==> s.key in targeted && rlpKey in RefKeys(s.annotation))
        && (s.key in left <==> s.key !in targeted && rlpKey in RefKeys(s.annotation))
  {
    forall s | s in items
      ensures s.key in KeysOf(Select(items, NewFilter(rlpKey, targeted))) <==> NewFilter(rlpKey, targeted)(s)
      ensures s.key in KeysOf(Select(items, SameFilter(rlpKey, targeted))) <==> SameFilter(rlpKey, targeted)(s)
      ensures s.key in KeysOf(Select(items, LeftFilter(rlpKey, targeted))) <==> LeftFilter(rlpKey, targeted)(s)
    {
      SelectedKey(items, NewFilter(rlpKey, targeted), s);
      SelectedKey(items, SameFilter(rlpKey, targeted), s);
      SelectedKey(items, LeftFilter(rlpKey, targeted), s);
    }
  }

  lemma SelectedKey(items: seq<Snapshot>, keep: Snapshot -> bool, s: Snapshot)
    requires DistinctKeys(items) && s in items
    ensures s.key in KeysOf(Select(items, keep)) <==> keep(s)
  {
    SelectMembers(items, keep);
    var kept := Select(items, keep);
    if s.key in KeysOf(kept) {
      var i :| 0 <= i < |kept| && kept[i].key == s.key;
      assert kept[i] in items;
      assert kept[i] == s;
    }
    if keep(s) {
      var i :| 0 <= i < |kept| && kept[i] == s;
      assert KeysOf(kept)[i] == s.key;
    }
  }

  lemma SelectedKeys(items: seq<Snapshot>, keep: Snapshot -> bool)
    ensures forall k :: k in KeysOf(Select(items, keep)) ==> k in KeysOf(items)
  {
    SelectMembers(items, keep);
    var kept := Select(items, keep);
    forall k | k in KeysOf(kept)
      ensures k in KeysOf(items)
    {
      var i :| 0 <= i < |kept| && kept[i].key == k;
      assert kept[i] in items;
      var j :| 0 <= j < |items| && items[j] == kept[i];
      assert KeysOf(items)[j] == k;
    }
  }
}
