/** pkg/common/common.go: the string form `ns/name#domain` under which a limit
    is filed in Limitador, its parser, and when the two are inverse. */
module Namespaces {
  import opened Common

  /** Go's `strings.Split` for a one-character separator. */
  function Split(s: string, sep: char): (parts: seq<string>)
    ensures |parts| >= 1
  {
    if s == [] then [[]]
    else
      var rest := Split(s[1..], sep);
      if s[0] == sep then [[]] + rest else [[s[0]] + rest[0]] + rest[1..]
  }

  function MarshallNamespace(gwKey: ObjectKey, domain: string): string {
    gwKey.namespace + "/" + gwKey.name + "#" + domain
  }

  function UnMarshallObjectKey(s: string): Option<ObjectKey> {
    var parts := Split(s, '/');
    if |parts| < 2 then None else Some(ObjectKey(parts[0], parts[1]))
  }

  function UnMarshallLimitNamespace(ns: string): Option<(ObjectKey, string)> {
    var parts := Split(ns, '#');
    if |parts| != 2 then None
    else
      var gwKey := UnMarshallObjectKey(parts[0]);
      if gwKey.None? then None else Some((gwKey.value, parts[1]))
  }

  /** The names the string form can carry. */
  predicate CanonicalKey(k: ObjectKey) {
    '/' !in k.namespace && '#' !in k.namespace && '/' !in k.name && '#' !in k.name
  }

  predicate CanonicalDomain(domain: string) {
    '#' !in domain
  }

  // ----- lemmas about Split -----

  lemma {:induction false} SplitParts(s: string, sep: char)
    ensures forall i :: 0 <= i < |Split(s, sep)| ==> sep !in Split(s, sep)[i]
    ensures forall i, c :: 0 <= i < |Split(s, sep)| && c !in s ==> c !in Split(s, sep)[i]
  {
    if s != [] {
      SplitParts(s[1..], sep);
      assert s == [s[0]] + s[1..];
    }
  }

  lemma {:induction false} SplitFirst(a: string, sep: char, b: string)
    requires sep !in a
    ensures Split(a + [sep] + b, sep) == [a] + Split(b, sep)
  {
    if a == [] {
      assert (a + [sep] + b)[1..] == b;
    } else {
      SplitFirst(a[1..], sep, b);
      assert (a + [sep] + b)[1..] == a[1..] + [sep] + b;
      assert a == [a[0]] + a[1..];
    }
  }

  lemma {:induction false} SplitWhole(a: string, sep: char)
    requires sep !in a
    ensures Split(a, sep) == [a]
  {
    if a != [] {
      SplitWhole(a[1..], sep);
      assert a == [a[0]] + a[1..];
    }
  }

  /** What stands before the first separator, and what the other parts are split from. */
  lemma {:induction false} SplitHead(s: string, sep: char) returns (tail: string)
    ensures if |Split(s, sep)| == 1 then s == Split(s, sep)[0]
            else s == Split(s, sep)[0] + [sep] + tail && Split(tail, sep) == Split(s, sep)[1..]
  {
    tail := [];
    if s != [] {
      if s[0] == sep {
        tail := s[1..];
      } else {
        tail := SplitHead(s[1..], sep);
      }
      assert s == [s[0]] + s[1..];
    }
  }

  // ----- the parser and the printer -----

  /** The strings that name a gateway and a domain: `namespace/name#domain`, where
      further parts may stand behind the name. */
  ghost predicate Names(ns: string, gwKey: ObjectKey, domain: string) {
    && CanonicalKey(gwKey) && CanonicalDomain(domain)
    && exists rest :: '#' !in rest && (rest != [] ==> rest[0] == '/') && ns == Named(gwKey, rest, domain)
  }

  function Named(gwKey: ObjectKey, rest: string, domain: string): string {
    gwKey.namespace + "/" + gwKey.name + rest + "#" + domain
  }

  lemma NamedIsParsed(gwKey: ObjectKey, rest: string, domain: string)
    requires CanonicalKey(gwKey) && CanonicalDomain(domain) && '#' !in rest && (rest != [] ==> rest[0] == '/')
    ensures UnMarshallLimitNamespace(Named(gwKey, rest, domain)) == Some((gwKey, domain))
  {
    var head := gwKey.namespace + "/" + gwKey.name + rest;
    assert Named(gwKey, rest, domain) == head + ['#'] + domain;
    SplitFirst(head, '#', domain);
    SplitWhole(domain, '#');
    assert head == gwKey.namespace + ['/'] + (gwKey.name + rest);
    SplitFirst(gwKey.namespace, '/', gwKey.name + rest);
    if rest == [] {
      assert gwKey.name + rest == gwKey.name;
      SplitWhole(gwKey.name, '/');
    } else {
      assert gwKey.name + rest == gwKey.name + ['/'] + rest[1..];
      SplitFirst(gwKey.name, '/', rest[1..]);
    }
  }

  /** The first part, and the separator with everything behind it, if there is one. */
  lemma FirstPart(s: string, sep: char) returns (rest: string)
    ensures (rest != [] ==> rest[0] == sep) && s == Split(s, sep)[0] + rest
  {
    var tail := SplitHead(s, sep);
    rest := if |Split(s, sep)| == 1 then [] else [sep] + tail;
    assert s == Split(s, sep)[0] + rest;
  }

  /** What a key is read from: the two parts, and further parts that are ignored. */
  lemma KeyIsNamed(head: string) returns (rest: string)
    requires UnMarshallObjectKey(head).Some?
    ensures var gwKey := UnMarshallObjectKey(head).value;
      (rest != [] ==> rest[0] == '/') && head == gwKey.namespace + "/" + gwKey.name + rest
  {
    var tail := SplitHead(head, '/');
    rest := FirstPart(tail, '/');
    KeyText(Split(head, '/')[0], Split(tail, '/')[0], rest);
  }

  lemma KeyText(a: string, b: string, c: string)
    ensures a + ['/'] + (b + c) == a + "/" + b + c
  {
  }

  /** The text before the only '#', and the domain behind it. */
  lemma NamespaceIsHeaded(ns: string)
    requires UnMarshallLimitNamespace(ns).Some?
    ensures var head := Split(ns, '#')[0];
      '#' !in head && ns == head + "#" + UnMarshallLimitNamespace(ns).value.1
  {
    SplitParts(ns, '#');
    var behind := SplitHead(ns, '#');
    var _ := SplitHead(behind, '#');
  }

  lemma ParsedIsNamed(ns: string) returns (rest: string)
    requires UnMarshallLimitNamespace(ns).Some?
    ensures var (gwKey, domain) := UnMarshallLimitNamespace(ns).value;
      '#' !in rest && (rest != [] ==> rest[0] == '/') && ns == Named(gwKey, rest, domain)
  {
    NamespaceIsHeaded(ns);
    var head := Split(ns, '#')[0];
    rest := KeyIsNamed(head);
    var gwKey := UnMarshallObjectKey(head).value;
    SuffixMembers(gwKey.namespace + "/" + gwKey.name, rest);
  }

  lemma SuffixMembers(a: string, b: string)
    ensures forall c :: c in b ==> c in a + b
  {
  }

  /** What parses, and to what. */
  lemma ParsesIffNamed(ns: string, gwKey: ObjectKey, domain: string)
    ensures UnMarshallLimitNamespace(ns) == Some((gwKey, domain)) <==> Names(ns, gwKey, domain)
  {
    if UnMarshallLimitNamespace(ns) == Some((gwKey, domain)) {
      ParsedIsCanonical(ns);
      var rest := ParsedIsNamed(ns);
      assert ns == Named(gwKey, rest, domain);
    }
    if Names(ns, gwKey, domain) {
      var rest :| '#' !in rest && (rest != [] ==> rest[0] == '/') && ns == Named(gwKey, rest, domain);
      NamedIsParsed(gwKey, rest, domain);
    }
  }

  /** The printed form is the shortest string that names the pair, and the only one of
      its length. */
  lemma PrintIsShortest(ns: string, gwKey: ObjectKey, domain: string)
    requires Names(ns, gwKey, domain)
    ensures var printed := MarshallNamespace(gwKey, domain);
      Names(printed, gwKey, domain) && |printed| <= |ns| && (|printed| == |ns| ==> printed == ns)
  {
    var printed := MarshallNamespace(gwKey, domain);
    ParsePrintRoundTrip(gwKey, domain);
    ParsesIffNamed(printed, gwKey, domain);
    var rest :| '#' !in rest && (rest != [] ==> rest[0] == '/') && ns == Named(gwKey, rest, domain);
    if rest == [] {
      assert ns == printed;
    }
  }

  /** Whatever the parser returns is canonical, so indexing a list normalises its keys. */
  lemma ParsedIsCanonical(ns: string)
    requires UnMarshallLimitNamespace(ns).Some?
    ensures CanonicalKey(UnMarshallLimitNamespace(ns).value.0)
    ensures CanonicalDomain(UnMarshallLimitNamespace(ns).value.1)
  {
    SplitParts(ns, '#');
    var head := Split(ns, '#')[0];
    SplitParts(head, '/');
  }

  /** Parsing undoes printing on exactly the canonical names. */
  lemma ParsePrintRoundTrip(gwKey: ObjectKey, domain: string)
    ensures UnMarshallLimitNamespace(MarshallNamespace(gwKey, domain)) == Some((gwKey, domain))
            <==> CanonicalKey(gwKey) && CanonicalDomain(domain)
  {
    var printed := MarshallNamespace(gwKey, domain);
    if CanonicalKey(gwKey) && CanonicalDomain(domain) {
      var head := gwKey.namespace + "/" + gwKey.name;
      SplitFirst(head, '#', domain);
      SplitWhole(domain, '#');
      SplitFirst(gwKey.namespace, '/', gwKey.name);
      SplitWhole(gwKey.name, '/');
      assert printed == head + ['#'] + domain;
      assert head == gwKey.namespace + ['/'] + gwKey.name;
    }
    if UnMarshallLimitNamespace(printed) == Some((gwKey, domain)) {
      ParsedIsCanonical(printed);
    }
  }

  /** So distinct canonical (gateway, domain) pairs never share a namespace. */
  lemma PrintIsInjective(k1: ObjectKey, d1: string, k2: ObjectKey, d2: string)
    requires CanonicalKey(k1) && CanonicalDomain(d1) && CanonicalKey(k2) && CanonicalDomain(d2)
    requires MarshallNamespace(k1, d1) == MarshallNamespace(k2, d2)
    ensures k1 == k2 && d1 == d2
  {
    ParsePrintRoundTrip(k1, d1);
    ParsePrintRoundTrip(k2, d2);
  }
}
