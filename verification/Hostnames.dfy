/** pkg/common/hostname.go and `ValidSubdomains` of pkg/common/common.go:
    a syntactic containment test on possibly wildcarded hostnames. */
module Hostnames {
  import opened Common

  predicate IsWildCarded(n: string) {
    |n| > 0 && n[0] == '*'
  }

  predicate HasSuffix(s: string, suffix: string) {
    |s| >= |suffix| && s[|s| - |suffix|..] == suffix
  }

  /** `Name.SubsetOf`. */
  predicate SubsetOf(n: string, o: string) {
    if IsWildCarded(n) then
      if IsWildCarded(o) then
        if |n| < |o| then false else HasSuffix(n[1..], o[1..])
      else false
    else if IsWildCarded(o) then HasSuffix(n, o[1..])
    else n == o
  }

  /** The concrete hosts a name stands for. A wildcard name stands for every
      concrete host that ends with what follows its '*'. */
  predicate Matches(n: string, host: string) {
    && !IsWildCarded(host)
    && if IsWildCarded(n) then HasSuffix(host, n[1..]) else host == n
  }

  ghost predicate Contained(n: string, o: string) {
    forall host :: Matches(n, host) ==> Matches(o, host)
  }

  lemma SuffixTransitive(s: string, t: string, u: string)
    requires HasSuffix(s, t) && HasSuffix(t, u)
    ensures HasSuffix(s, u)
  {
    assert s[|s| - |t|..][|t| - |u|..] == s[|s| - |u|..];
  }

  /** A host of `n` outside `o`, when the test says there should be one: one of
      two one-letter extensions of what follows the '*'. */
  lemma EscapingHost(n: string, o: string) returns (host: string)
    requires !SubsetOf(n, o)
    ensures Matches(n, host) && !Matches(o, host)
  {
    if !IsWildCarded(n) {
      return n;
    }
    var x, y := "x" + n[1..], "y" + n[1..];
    assert x[1..] == n[1..] == y[1..];
    if !IsWildCarded(o) {
      return if x == o then y else x;
    }
    host := if x == o[1..] then y else x;
    ShorterSuffix(host, n[1..], o[1..]);
  }

  /** A suffix of a string other than the whole string is a suffix of the string's tail. */
  lemma ShorterSuffix(host: string, tail: string, s: string)
    requires host != [] && host[1..] == tail && host != s
    ensures HasSuffix(host, s) ==> HasSuffix(tail, s)
  {
    if |s| < |host| {
      assert host[|host| - |s|..] == tail[|tail| - |s|..];
    }
  }

  /** The test is sound and complete for containment of the denoted host sets. */
  lemma SubsetOfIsContainment(n: string, o: string)
    ensures SubsetOf(n, o) <==> Contained(n, o)
  {
    if SubsetOf(n, o) {
      forall host | Matches(n, host)
        ensures Matches(o, host)
      {
        if IsWildCarded(n) {
          SuffixTransitive(host, n[1..], o[1..]);
        }
      }
    } else {
      var host := EscapingHost(n, o);
    }
  }

  lemma SubsetOfIsPreorder(a: string, b: string, c: string)
    ensures SubsetOf(a, a)
    ensures SubsetOf(a, b) && SubsetOf(b, c) ==> SubsetOf(a, c)
  {
    SubsetOfIsContainment(a, a);
    SubsetOfIsContainment(a, b);
    SubsetOfIsContainment(b, c);
    SubsetOfIsContainment(a, c);
  }

  // ----- lists of names -----

  ghost predicate Covered(domains: seq<string>, sub: string) {
    exists i :: 0 <= i < |domains| && SubsetOf(sub, domains[i])
  }

  ghost predicate AllCovered(domains: seq<string>, subdomains: seq<string>) {
    forall i :: 0 <= i < |subdomains| ==> Covered(domains, subdomains[i])
  }

  ghost predicate FirstUncoveredAt(domains: seq<string>, subdomains: seq<string>, k: int) {
    && 0 <= k < |subdomains| && !Covered(domains, subdomains[k])
    && forall i :: 0 <= i < k ==> Covered(domains, subdomains[i])
  }

  /** The first subdomain that no single domain covers, if there is one. */
  ghost function FirstUncovered(domains: seq<string>, subdomains: seq<string>): (r: Option<string>)
    ensures r.None? <==> AllCovered(domains, subdomains)
    ensures r.Some? ==> exists k :: FirstUncoveredAt(domains, subdomains, k) && subdomains[k] == r.value
  {
    if AllCovered(domains, subdomains) then None
    else
      FirstUncoveredExists(domains, subdomains);
      var k :| FirstUncoveredAt(domains, subdomains, k);
      Some(subdomains[k])
  }

  lemma {:induction false} FirstUncoveredExists(domains: seq<string>, subdomains: seq<string>)
    requires !AllCovered(domains, subdomains)
    ensures exists k :: FirstUncoveredAt(domains, subdomains, k)
  {
    var k := 0;
    while Covered(domains, subdomains[k])
      invariant k < |subdomains| && forall i :: 0 <= i < k ==> Covered(domains, subdomains[i])
      decreases |subdomains| - k
    {
      k := k + 1;
    }
    assert FirstUncoveredAt(domains, subdomains, k);
  }

  lemma FirstUncoveredIsUnique(domains: seq<string>, subdomains: seq<string>, k: int)
    requires FirstUncoveredAt(domains, subdomains, k)
    ensures FirstUncovered(domains, subdomains) == Some(subdomains[k])
  {
    assert !AllCovered(domains, subdomains);
    var r :| FirstUncoveredAt(domains, subdomains, r) && subdomains[r] == FirstUncovered(domains, subdomains).value;
    assert FirstUncoveredAt(domains, subdomains, r);
    assert r == k;
  }

  method ValidSubdomains(domains: seq<string>, subdomains: seq<string>) returns (valid: bool, invalid: string)
    ensures valid <==> AllCovered(domains, subdomains)
    ensures if valid then invalid == "" else FirstUncovered(domains, subdomains) == Some(invalid)
  {
    for k := 0 to |subdomains|
      invariant forall i :: 0 <= i < k ==> Covered(domains, subdomains[i])
    {
      var validSubdomain := false;
      for i := 0 to |domains|
        invariant !validSubdomain
        invariant forall j :: 0 <= j < i ==> !SubsetOf(subdomains[k], domains[j])
      {
        if SubsetOf(subdomains[k], domains[i]) {
          validSubdomain := true;
          break;
        }
      }
      if !validSubdomain {
        FirstUncoveredIsUnique(domains, subdomains, k);
        return false, subdomains[k];
      }
    }
    return true, "";
  }

  /** Hosts of accepted subdomains are hosts of the domains. */
  lemma AcceptedHostsAreCovered(domains: seq<string>, subdomains: seq<string>, sub: string, host: string)
    requires FirstUncovered(domains, subdomains).None?
    requires sub in subdomains && Matches(sub, host)
    ensures exists d :: d in domains && Matches(d, host)
  {
    var i :| 0 <= i < |subdomains| && subdomains[i] == sub;
    assert Covered(domains, subdomains[i]);
    var j :| 0 <= j < |domains| && SubsetOf(sub, domains[j]);
    SubsetOfIsContainment(sub, domains[j]);
    assert domains[j] in domains;
  }

  /** Widening the domains never invalidates an accepted list. */
  lemma WideningKeepsValidity(domains: seq<string>, wider: seq<string>, subdomains: seq<string>)
    requires forall d :: d in domains ==> Covered(wider, d)
    requires FirstUncovered(domains, subdomains).None?
    ensures FirstUncovered(wider, subdomains).None?
  {
    forall i | 0 <= i < |subdomains|
      ensures Covered(wider, subdomains[i])
    {
      assert Covered(domains, subdomains[i]);
      var j :| 0 <= j < |domains| && SubsetOf(subdomains[i], domains[j]);
      assert Covered(wider, domains[j]);
      var k :| 0 <= k < |wider| && SubsetOf(domains[j], wider[k]);
      SubsetOfIsPreorder(subdomains[i], domains[j], wider[k]);
    }
  }
}
