/** pkg/rlptools/limit_index.go: the two-level index (gateway, then domain) over
    the flat Limitador list, and the laws that tie the two together. */
module LimitIndexes {
  import opened Common
  import opened LimitOrder
  import opened Namespaces
  import opened Sums

  /** One element of Limitador's flat list. */
  datatype RateLimit = RateLimit(namespace: string, maxValue: int, seconds: int,
                                 variables: seq<string>, conditions: seq<string>)

  /** One indexed limit: the same element with its namespace taken apart. */
  datatype Entry = Entry(gateway: ObjectKey, domain: string, limit: Limit)

  type LimitsByDomain = map<string, seq<Limit>>
  type Index = map<ObjectKey, LimitsByDomain>

  function Lookup<T>(m: map<string, seq<T>>, domain: string): seq<T> {
    if domain in m then m[domain] else []
  }

  /** How often an index holds an entry. */
  ghost function Mult(idx: Index, e: Entry): nat {
    if e.gateway in idx then multiset(Lookup(idx[e.gateway], e.domain))[e.limit] else 0
  }

  /** The element of the flat list says the same as the limit. */
  predicate SameFields(rl: RateLimit, l: Limit) {
    && rl.maxValue == l.maxValue && rl.seconds == l.seconds
    && rl.conditions == l.conditions && rl.variables == l.variables
  }

  function Print(e: Entry): (rl: RateLimit)
    ensures SameFields(rl, e.limit)
  {
    RateLimit(MarshallNamespace(e.gateway, e.domain), e.limit.maxValue, e.limit.seconds,
              e.limit.variables, e.limit.conditions)
  }

  function LimitFromRateLimit(rl: RateLimit): (l: Limit)
    ensures SameFields(rl, l)
  {
    Limit(rl.maxValue, rl.seconds, rl.conditions, rl.variables)
  }

  function ParseEntry(rl: RateLimit): Option<Entry> {
    var parsed := UnMarshallLimitNamespace(rl.namespace);
    if parsed.None? then None
    else Some(Entry(parsed.value.0, parsed.value.1, LimitFromRateLimit(rl)))
  }

  /** The element names the entry's gateway and domain and has the fields of its limit. */
  ghost predicate Says(rl: RateLimit, e: Entry) {
    Names(rl.namespace, e.gateway, e.domain) && SameFields(rl, e.limit)
  }

  lemma ParsesIffSaid(rl: RateLimit, e: Entry)
    ensures ParseEntry(rl) == Some(e) <==> Says(rl, e)
  {
    ParsesIffNamed(rl.namespace, e.gateway, e.domain);
  }

  /** The elements of a flat list whose namespace parses, in order. */
  ghost function ParsedEntries(limits: seq<RateLimit>): seq<Entry> {
    if limits == [] then []
    else
      var e := ParseEntry(limits[|limits| - 1]);
      ParsedEntries(limits[..|limits| - 1]) + if e.Some? then [e.value] else []
  }

  /** What a flat list says, whatever its order: its parseable entries as a multiset. */
  ghost function Parsed(limits: seq<RateLimit>): multiset<Entry> {
    multiset(ParsedEntries(limits))
  }

  function PrintAll(es: seq<Entry>): seq<RateLimit> {
    seq(|es|, i requires 0 <= i < |es| => Print(es[i]))
  }

  ghost predicate CanonicalEntry(e: Entry) {
    CanonicalKey(e.gateway) && CanonicalDomain(e.domain)
  }

  /** No gateway without domains, no domain without limits. */
  ghost predicate WellFormed(idx: Index) {
    forall k :: k in idx ==> idx[k] != map[] && forall d :: d in idx[k] ==> idx[k][d] != []
  }

  ghost predicate CanonicalIndex(idx: Index) {
    forall e: Entry :: Mult(idx, e) > 0 ==> CanonicalEntry(e)
  }

  ghost predicate SameDomains(a: LimitsByDomain, b: LimitsByDomain) {
    a.Keys == b.Keys && forall d :: d in a ==> multiset(a[d]) == multiset(b[d])
  }

  /** What `Equals` decides. */
  ghost predicate SameIndex(a: Index, b: Index) {
    a.Keys == b.Keys && forall k :: k in a ==> SameDomains(a[k], b[k])
  }

  /** `es` lists every held entry as often as the index holds it, in some order. */
  ghost predicate Enumerates(es: seq<Entry>, idx: Index) {
    forall e: Entry :: multiset(es)[e] == Mult(idx, e)
  }

  /** `limits` prints the index, entry by entry, in some order. */
  ghost predicate Prints(limits: seq<RateLimit>, idx: Index) {
    exists es :: Enumerates(es, idx) && limits == PrintAll(es)
  }

  lemma PrintedMembers(es: seq<Entry>)
    ensures forall rl :: rl in PrintAll(es) ==> exists e :: e in es && rl == Print(e)
  {
    forall rl | rl in PrintAll(es)
      ensures exists e :: e in es && rl == Print(e)
    {
      var i :| 0 <= i < |es| && PrintAll(es)[i] == rl;
      assert es[i] in es;
    }
  }

  function AddLimitTo(idx: Index, e: Entry): Index {
    var domains := if e.gateway in idx then idx[e.gateway] else map[];
    idx[e.gateway := domains[e.domain := Lookup(domains, e.domain) + [e.limit]]]
  }

  function AddRateLimitTo(idx: Index, rl: RateLimit): Index {
    var e := ParseEntry(rl);
    if e.None? then idx else AddLimitTo(idx, e.value)
  }

  function IndexOf(limits: seq<RateLimit>): Index {
    if limits == [] then map[]
    else AddRateLimitTo(IndexOf(limits[..|limits| - 1]), limits[|limits| - 1])
  }

  class LimitIndex {
    var gatewayLimits: Index

    /** `NewLimitadorIndex`; a missing Limitador resource gives the empty index. */
    constructor (limits: Option<seq<RateLimit>>)
      ensures gatewayLimits == if limits.Some? then IndexOf(limits.value) else map[]
      ensures forall e: Entry :: Mult(gatewayLimits, e) == if limits.Some? then SaidIn(limits.value, e) else 0
    {
      gatewayLimits := map[];
      new;
      if limits.Some? {
        for i := 0 to |limits.value|
          invariant gatewayLimits == IndexOf(limits.value[..i])
        {
          AddLimitFromRateLimit(limits.value[i]);
          assert limits.value[..i + 1][..i] == limits.value[..i];
        }
        assert limits.value[..|limits.value|] == limits.value;
        IndexHoldsSaid(limits.value);
      }
    }

    method DeleteGateway(gwKey: ObjectKey)
      modifies this
      ensures gatewayLimits == old(gatewayLimits) - {gwKey}
    {
      gatewayLimits := gatewayLimits - {gwKey};
    }

    method AddLimit(gwKey: ObjectKey, domain: string, limit: Limit)
      modifies this
      ensures gatewayLimits == AddLimitTo(old(gatewayLimits), Entry(gwKey, domain, limit))
    {
      if gwKey !in gatewayLimits {
        gatewayLimits := gatewayLimits[gwKey := map[]];
      }
      var domains := gatewayLimits[gwKey];
      gatewayLimits := gatewayLimits[gwKey := domains[domain := Lookup(domains, domain) + [limit]]];
    }

    method AddLimitFromRateLimit(rl: RateLimit)
      modifies this
      ensures gatewayLimits == AddRateLimitTo(old(gatewayLimits), rl)
      ensures forall e: Entry :: Mult(gatewayLimits, e) == old(Mult(gatewayLimits, e)) + if Says(rl, e) then 1 else 0
    {
      AddSaid(gatewayLimits, rl);
      var parsed := UnMarshallLimitNamespace(rl.namespace);
      if parsed.None? {
        return;
      }
      AddLimit(parsed.value.0, parsed.value.1, LimitFromRateLimit(rl));
    }

    /** Adds every limit of every domain, visiting the domains in any order. */
    method AddGatewayLimits(gwKey: ObjectKey, gwLimits: LimitsByDomain)
      modifies this
      ensures old(WellFormed(gatewayLimits)) ==> WellFormed(gatewayLimits)
      ensures forall e: Entry ::
          Mult(gatewayLimits, e) == old(Mult(gatewayLimits, e)) +
              (if e.gateway == gwKey then multiset(Lookup(gwLimits, e.domain))[e.limit] else 0)
    {
      var todo := gwLimits.Keys;
      while todo != {}
        invariant todo <= gwLimits.Keys
        invariant old(WellFormed(gatewayLimits)) ==> WellFormed(gatewayLimits)
        invariant forall e: Entry ::
          Mult(gatewayLimits, e) == old(Mult(gatewayLimits, e)) +
              (if e.gateway == gwKey && e.domain !in todo then multiset(Lookup(gwLimits, e.domain))[e.limit] else 0)
        decreases todo
      {
        var d :| d in todo;
        AddDomainLimits(gwKey, d, gwLimits[d]);
        todo := todo - {d};
      }
    }

    method AddDomainLimits(gwKey: ObjectKey, domain: string, limits: seq<Limit>)
      modifies this
      ensures old(WellFormed(gatewayLimits)) ==> WellFormed(gatewayLimits)
      ensures forall e: Entry ::
          Mult(gatewayLimits, e) == old(Mult(gatewayLimits, e)) +
              (if e.gateway == gwKey && e.domain == domain then multiset(limits)[e.limit] else 0)
    {
      for i := 0 to |limits|
        invariant old(WellFormed(gatewayLimits)) ==> WellFormed(gatewayLimits)
        invariant forall e: Entry ::
          Mult(gatewayLimits, e) == old(Mult(gatewayLimits, e)) +
              (if e.gateway == gwKey && e.domain == domain then multiset(limits[..i])[e.limit] else 0)
      {
        AddLimitCounts(gatewayLimits, Entry(gwKey, domain, limits[i]));
        AddLimit(gwKey, domain, limits[i]);
        assert limits[..i + 1] == limits[..i] + [limits[i]];
      }
      assert limits[..|limits|] == limits;
    }

    /** Prints the index as a flat list, visiting gateways and domains in any order. */
    method ToLimits() returns (limits: seq<RateLimit>, ghost es: seq<Entry>)
      ensures limits == PrintAll(es) && Enumerates(es, gatewayLimits)
      ensures Prints(limits, gatewayLimits)
    {
      limits, es := [], [];
      var todo := gatewayLimits.Keys;
      while todo != {}
        invariant todo <= gatewayLimits.Keys
        invariant limits == PrintAll(es)
        invariant forall e: Entry :: multiset(es)[e] == if e.gateway in todo then 0 else Mult(gatewayLimits, e)
        decreases todo
      {
        var k :| k in todo;
        var ls, gs := GatewayToLimits(k);
        limits, es := limits + ls, es + gs;
        todo := todo - {k};
      }
    }

    method GatewayToLimits(gwKey: ObjectKey) returns (limits: seq<RateLimit>, ghost es: seq<Entry>)
      requires gwKey in gatewayLimits
      ensures limits == PrintAll(es)
      ensures forall e: Entry :: multiset(es)[e] == if e.gateway == gwKey then Mult(gatewayLimits, e) else 0
      ensures forall rl :: rl in limits ==>
        exists e: Entry :: e.gateway == gwKey && Mult(gatewayLimits, e) > 0 && rl == Print(e)
    {
      limits, es := [], [];
      var domains := gatewayLimits[gwKey];
      var todo := domains.Keys;
      while todo != {}
        invariant todo <= domains.Keys
        invariant limits == PrintAll(es)
        invariant forall e: Entry ::
          multiset(es)[e] ==
          (if e.gateway == gwKey && e.domain !in todo then multiset(Lookup(domains, e.domain))[e.limit] else 0)
        decreases todo
      {
        var d :| d in todo;
        ghost var more;
        limits, more := DomainToLimits(gwKey, d, domains[d], limits, es);
        es := es + more;
        todo := todo - {d};
      }
      PrintedMembers(es);
      assert forall e :: e in es ==> multiset(es)[e] > 0;
    }

    /** The inner loop: the limits of one domain are printed behind what is there. */
    static method DomainToLimits(gwKey: ObjectKey, domain: string, list: seq<Limit>, before: seq<RateLimit>,
                                 ghost printed: seq<Entry>)
      returns (limits: seq<RateLimit>, ghost es: seq<Entry>)
      requires before == PrintAll(printed)
      ensures limits == PrintAll(printed + es)
      ensures forall e: Entry ::
        multiset(es)[e] == if e.gateway == gwKey && e.domain == domain then multiset(list)[e.limit] else 0
    {
      limits, es := before, [];
      for i := 0 to |list|
        invariant limits == PrintAll(printed + es)
        invariant forall e: Entry ::
          multiset(es)[e] == if e.gateway == gwKey && e.domain == domain then multiset(list[..i])[e.limit] else 0
      {
        limits := limits + [Print(Entry(gwKey, domain, list[i]))];
        es := es + [Entry(gwKey, domain, list[i])];
        assert list[..i + 1] == list[..i] + [list[i]];
      }
      assert list[..|list|] == list;
    }

    method Equals(other: LimitIndex?) returns (same: bool)
      ensures same <==> other != null && SameIndex(gatewayLimits, other.gatewayLimits)
    {
      if other == null {
        return false;
      }
      if |gatewayLimits| != |other.gatewayLimits| {
        assert gatewayLimits.Keys != other.gatewayLimits.Keys;
        return false;
      }
      var todo := gatewayLimits.Keys;
      while todo != {}
        invariant todo <= gatewayLimits.Keys
        invariant forall k :: k in gatewayLimits && k !in todo ==>
          k in other.gatewayLimits && SameDomains(gatewayLimits[k], other.gatewayLimits[k])
        decreases todo
      {
        var k :| k in todo;
        if k !in other.gatewayLimits {
          return false;
        }
        var sameDomains := DomainsEqual(gatewayLimits[k], other.gatewayLimits[k]);
        if !sameDomains {
          return false;
        }
        todo := todo - {k};
      }
      SameSizeSubset(gatewayLimits.Keys, other.gatewayLimits.Keys);
      return true;
    }
  }

  /** `LimitsByDomain.Equals`. */
  method DomainsEqual(a: LimitsByDomain, b: LimitsByDomain) returns (same: bool)
    ensures same <==> SameDomains(a, b)
  {
    if |a| != |b| {
      assert a.Keys != b.Keys;
      return false;
    }
    var todo := a.Keys;
    while todo != {}
      invariant todo <= a.Keys
      invariant forall d :: d in a && d !in todo ==> d in b && multiset(a[d]) == multiset(b[d])
      decreases todo
    {
      var d :| d in todo;
      if d !in b {
        return false;
      }
      var sameList := SameLimitList(a[d], b[d]);
      if !sameList {
        return false;
      }
      todo := todo - {d};
    }
    SameSizeSubset(a.Keys, b.Keys);
    return true;
  }

  lemma SameSizeSubset<T>(a: set<T>, b: set<T>)
    requires a <= b && |a| == |b|
    ensures a == b
  {
    assert |b - a| == |b| - |a|;
  }

  // ----- each update, counted -----

  lemma AddLimitCounts(idx: Index, added: Entry)
    ensures forall e: Entry :: Mult(AddLimitTo(idx, added), e) == Mult(idx, e) + if e == added then 1 else 0
    ensures WellFormed(idx) ==> WellFormed(AddLimitTo(idx, added))
  {
    forall e: Entry
      ensures Mult(AddLimitTo(idx, added), e) == Mult(idx, e) + if e == added then 1 else 0
    {
      AddedCount(idx, added, e);
    }
    if WellFormed(idx) {
      AddLimitKeepsForm(idx, added);
    }
  }

  lemma AddedCount(idx: Index, added: Entry, e: Entry)
    ensures Mult(AddLimitTo(idx, added), e) == Mult(idx, e) + if e == added then 1 else 0
  {
    var after := AddLimitTo(idx, added);
    var domains := if added.gateway in idx then idx[added.gateway] else map[];
    var list := Lookup(domains, added.domain) + [added.limit];
    assert after[added.gateway] == domains[added.domain := list];
    if e.gateway == added.gateway {
      assert Lookup(after[e.gateway], e.domain) == if e.domain == added.domain then list else Lookup(domains, e.domain);
    }
  }

  lemma AddLimitKeepsForm(idx: Index, added: Entry)
    requires WellFormed(idx)
    ensures WellFormed(AddLimitTo(idx, added))
  {
    var after := AddLimitTo(idx, added);
    assert added.domain in after[added.gateway];
  }

  /** An element of the flat list counts for what it says, and for nothing else. */
  lemma AddSaid(idx: Index, rl: RateLimit)
    ensures forall e: Entry :: Mult(AddRateLimitTo(idx, rl), e) == Mult(idx, e) + if Says(rl, e) then 1 else 0
  {
    var parsed := ParseEntry(rl);
    if parsed.Some? {
      AddLimitCounts(idx, parsed.value);
    }
    forall e: Entry
      ensures Mult(AddRateLimitTo(idx, rl), e) == Mult(idx, e) + if Says(rl, e) then 1 else 0
    {
      ParsesIffSaid(rl, e);
    }
  }

  lemma DeleteGatewayCounts(idx: Index, gwKey: ObjectKey)
    ensures forall e: Entry :: Mult(idx - {gwKey}, e) == if e.gateway == gwKey then 0 else Mult(idx, e)
    ensures WellFormed(idx) ==> WellFormed(idx - {gwKey})
  {
  }

  lemma {:induction false} IndexCounts(limits: seq<RateLimit>, e: Entry)
    ensures Mult(IndexOf(limits), e) == Parsed(limits)[e]
  {
    if limits != [] {
      var init, last := limits[..|limits| - 1], limits[|limits| - 1];
      IndexCounts(init, e);
      if ParseEntry(last).Some? {
        AddLimitCounts(IndexOf(init), ParseEntry(last).value);
      }
    }
  }

  lemma {:induction false} IndexIsWellFormed(limits: seq<RateLimit>)
    ensures WellFormed(IndexOf(limits)) && CanonicalIndex(IndexOf(limits))
  {
    if limits != [] {
      var init, last := limits[..|limits| - 1], limits[|limits| - 1];
      IndexIsWellFormed(init);
      if ParseEntry(last).Some? {
        AddLimitCounts(IndexOf(init), ParseEntry(last).value);
        ParsedIsCanonical(last.namespace);
        AddLimitIsCanonical(IndexOf(init), ParseEntry(last).value);
      }
    }
  }

  /** The index built from a flat list holds exactly what the list says. */
  lemma IndexHoldsParsed(limits: seq<RateLimit>)
    ensures forall e: Entry :: Mult(IndexOf(limits), e) == Parsed(limits)[e]
    ensures WellFormed(IndexOf(limits)) && CanonicalIndex(IndexOf(limits))
  {
    forall e: Entry
      ensures Mult(IndexOf(limits), e) == Parsed(limits)[e]
    {
      IndexCounts(limits, e);
    }
    IndexIsWellFormed(limits);
  }

  /** And so each entry as often as elements say it. */
  lemma IndexHoldsSaid(limits: seq<RateLimit>)
    ensures forall e: Entry :: Mult(IndexOf(limits), e) == SaidIn(limits, e)
  {
    forall e: Entry
      ensures Mult(IndexOf(limits), e) == SaidIn(limits, e)
    {
      IndexCounts(limits, e);
      ParsedIsSum(limits, e);
    }
  }

  lemma AddLimitIsCanonical(idx: Index, added: Entry)
    requires CanonicalIndex(idx) && CanonicalEntry(added)
    ensures CanonicalIndex(AddLimitTo(idx, added))
  {
    AddLimitCounts(idx, added);
  }

  // ----- order does not matter -----

  ghost function SaysCopies(e: Entry): RateLimit -> nat {
    (rl: RateLimit) => if Says(rl, e) then 1 else 0
  }

  /** How many elements of a flat list say an entry. */
  ghost function SaidIn(limits: seq<RateLimit>, e: Entry): nat {
    Sum(SaysCopies(e), limits)
  }

  ghost function PrintsTo(rl: RateLimit): Entry -> nat {
    e => if Print(e) == rl then 1 else 0
  }

  lemma {:induction false} ParsedIsSum(limits: seq<RateLimit>, e: Entry)
    ensures Parsed(limits)[e] == SaidIn(limits, e)
  {
    if limits != [] {
      var init, last := limits[..|limits| - 1], limits[|limits| - 1];
      ParsedIsSum(init, e);
      ParsesIffSaid(last, e);
      assert ParsedEntries(limits) ==
             ParsedEntries(init) + if ParseEntry(last).Some? then [ParseEntry(last).value] else [];
    }
  }

  lemma {:induction false} PrintedIsSum(es: seq<Entry>, rl: RateLimit)
    ensures multiset(PrintAll(es))[rl] == Sum(PrintsTo(rl), es)
  {
    if es != [] {
      var init, last := es[..|es| - 1], es[|es| - 1];
      PrintedIsSum(init, rl);
      assert PrintAll(es) == PrintAll(init) + [Print(last)];
    }
  }

  lemma ParsedIgnoresOrder(a: seq<RateLimit>, b: seq<RateLimit>)
    requires multiset(a) == multiset(b)
    ensures Parsed(a) == Parsed(b)
  {
    forall e: Entry
      ensures Parsed(a)[e] == Parsed(b)[e]
    {
      ParsedIsSum(a, e);
      ParsedIsSum(b, e);
      SumPermutation(SaysCopies(e), a, b);
    }
  }

  lemma PrintedIgnoresOrder(a: seq<Entry>, b: seq<Entry>)
    requires multiset(a) == multiset(b)
    ensures multiset(PrintAll(a)) == multiset(PrintAll(b))
  {
    forall rl: RateLimit
      ensures multiset(PrintAll(a))[rl] == multiset(PrintAll(b))[rl]
    {
      PrintedIsSum(a, rl);
      PrintedIsSum(b, rl);
      SumPermutation(PrintsTo(rl), a, b);
    }
  }

  // ----- the laws between index and flat list -----

  /** Parsing a printed list gives back the printed entries. */
  lemma {:induction false} ParsePrintedList(es: seq<Entry>)
    requires forall e :: e in es ==> CanonicalEntry(e)
    ensures ParsedEntries(PrintAll(es)) == es
  {
    if es != [] {
      var init, last := es[..|es| - 1], es[|es| - 1];
      assert PrintAll(es)[..|es| - 1] == PrintAll(init);
      assert es == init + [last];
      ParsePrintedList(init);
      assert last in es;
      ParsePrintRoundTrip(last.gateway, last.domain);
    }
  }

  /** A printed index says each entry as often as the index holds it. */
  lemma PrintedSaysHeld(idx: Index, limits: seq<RateLimit>, e: Entry)
    requires CanonicalIndex(idx) && Prints(limits, idx)
    ensures SaidIn(limits, e) == Mult(idx, e)
  {
    var es :| Enumerates(es, idx) && limits == PrintAll(es);
    EnumeratedIsCanonical(es, idx);
    ParsePrintedList(es);
    ParsedIsSum(limits, e);
  }

  lemma EnumeratedIsCanonical(es: seq<Entry>, idx: Index)
    requires Enumerates(es, idx) && CanonicalIndex(idx)
    ensures forall e :: e in es ==> CanonicalEntry(e)
  {
    forall e | e in es
      ensures CanonicalEntry(e)
    {
      assert e in multiset(es);
      assert multiset(es)[e] == Mult(idx, e);
    }
  }

  /** For indexes without empty entries, `Equals` compares held counts. */
  lemma SameIndexIsSameMult(a: Index, b: Index)
    requires WellFormed(a) && WellFormed(b)
    ensures SameIndex(a, b) <==> forall e: Entry :: Mult(a, e) == Mult(b, e)
  {
    if SameIndex(a, b) {
      forall e: Entry
        ensures Mult(a, e) == Mult(b, e)
      {
        if e.gateway in a && e.domain in a[e.gateway] {
          assert SameDomains(a[e.gateway], b[e.gateway]);
        }
      }
    }
    if forall e: Entry :: Mult(a, e) == Mult(b, e) {
      forall k | k in a
        ensures k in b && a[k].Keys <= b[k].Keys
      {
        HeldKeysAreShared(a, b, k);
      }
      forall k | k in b
        ensures k in a && b[k].Keys <= a[k].Keys
      {
        HeldKeysAreShared(b, a, k);
      }
      forall k, d | k in a && d in a[k]
        ensures multiset(a[k][d]) == multiset(b[k][d])
      {
        forall l: Limit
          ensures multiset(a[k][d])[l] == multiset(b[k][d])[l]
        {
          assert Mult(a, Entry(k, d, l)) == Mult(b, Entry(k, d, l));
        }
      }
    }
  }

  lemma HeldKeysAreShared(a: Index, b: Index, k: ObjectKey)
    requires WellFormed(a) && k in a
    requires forall e: Entry :: Mult(a, e) == Mult(b, e)
    ensures k in b && a[k].Keys <= b[k].Keys
  {
    assert a[k].Keys != {};
    forall d | d in a[k]
      ensures k in b && d in b[k]
    {
      var e := Entry(k, d, a[k][d][0]);
      assert e.limit in multiset(a[k][d]);
      assert Mult(a, e) > 0;
      assert Mult(b, e) > 0;
    }
    var d :| d in a[k];
  }

  /** Two canonical indexes are `Equals` exactly when the flat lists they print
      are equal as multisets, however each of them is enumerated. */
  lemma EqualsIsFlatEquality(a: Index, b: Index, xs: seq<Entry>, ys: seq<Entry>)
    requires WellFormed(a) && WellFormed(b) && CanonicalIndex(a) && CanonicalIndex(b)
    requires Enumerates(xs, a) && Enumerates(ys, b)
    ensures SameIndex(a, b) <==> multiset(PrintAll(xs)) == multiset(PrintAll(ys))
  {
    SameIndexIsSameMult(a, b);
    EnumeratedIsCanonical(xs, a);
    EnumeratedIsCanonical(ys, b);
    ParsePrintedList(xs);
    ParsePrintedList(ys);
    if SameIndex(a, b) {
      assert forall e: Entry :: multiset(xs)[e] == multiset(ys)[e];
      assert multiset(xs) == multiset(ys);
      PrintedIgnoresOrder(xs, ys);
    }
    if multiset(PrintAll(xs)) == multiset(PrintAll(ys)) {
      ParsedIgnoresOrder(PrintAll(xs), PrintAll(ys));
      assert forall e: Entry :: Mult(a, e) == multiset(xs)[e] == multiset(ys)[e] == Mult(b, e);
    }
  }

  /** Indexing a flat list and printing it back keeps exactly the elements whose
      namespace parses, each under its canonical namespace. */
  lemma IndexPrintRoundTrip(limits: seq<RateLimit>, es: seq<Entry>)
    requires Enumerates(es, IndexOf(limits))
    ensures multiset(PrintAll(es)) == multiset(PrintAll(ParsedEntries(limits)))
    ensures Parsed(PrintAll(es)) == Parsed(limits)
  {
    IndexHoldsParsed(limits);
    assert forall e: Entry :: multiset(es)[e] == Parsed(limits)[e];
    assert multiset(es) == Parsed(limits);
    PrintedIgnoresOrder(es, ParsedEntries(limits));
    EnumeratedIsCanonical(es, IndexOf(limits));
    ParsePrintedList(es);
  }
}
