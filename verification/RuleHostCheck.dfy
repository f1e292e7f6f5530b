/** The hosts a policy's rules name are checked against the hostnames of its target
    before anything derived is written. */
module RuleHostCheck {
  import opened Cluster
  import opened Common
  import opened Concatenations
  import opened Effects
  import opened Hostnames
  import opened Plans
  import opened TargetRefs

  // ----- hostnames of the target, in the user's objects -----

  /** A hostname of the route, or of a listener of the gateway, that the reference denotes. */
  ghost predicate HasHostname(topo: Topology, ref: TargetRef, key: ObjectKey, hostname: string) {
    if ref.kind == "HTTPRoute" then key in topo.routes && hostname in topo.routes[key].hostnames
    else ref.kind == "Gateway" && key in topo.gateways && Some(hostname) in topo.gateways[key].listeners
  }

  /** The target serves every concrete host if it has no hostname, and else those that one
      of its hostnames matches. */
  ghost predicate ServesHost(topo: Topology, ref: TargetRef, key: ObjectKey, host: string) {
    (forall hostname :: !HasHostname(topo, ref, key, hostname))
    || exists hostname :: HasHostname(topo, ref, key, hostname) && Matches(hostname, host)
  }

  /** One hostname of the target contains the name, or the target has none. */
  ghost predicate Fits(topo: Topology, ref: TargetRef, key: ObjectKey, name: string) {
    (forall hostname :: !HasHostname(topo, ref, key, hostname))
    || exists hostname :: HasHostname(topo, ref, key, hostname) && Contained(name, hostname)
  }

  lemma EverythingFitsStar(name: string)
    ensures SubsetOf(name, "*")
  {
    assert "*"[1..] == "";
  }

  lemma ServedNames(topo: Topology, ref: TargetRef, defaultNs: string, key: ObjectKey)
    requires Denotes(key, ref.namespace, ref.name, defaultNs) && HostnamesOfTarget(topo, ref, defaultNs).Ok?
    ensures var names := HostnamesOfTarget(topo, ref, defaultNs).value;
      if forall hostname :: !HasHostname(topo, ref, key, hostname) then names == ["*"]
      else forall hostname :: hostname in names <==> HasHostname(topo, ref, key, hostname)
  {
    var names := HostnamesOfTarget(topo, ref, defaultNs).value;
    ServedHostnames(topo, ref, defaultNs, key);
    if ref.kind == "HTTPRoute" {
      var hostnames := topo.routes[key].hostnames;
      if hostnames != [] {
        assert HasHostname(topo, ref, key, hostnames[0]);
      }
    } else {
      var listeners := topo.gateways[key].listeners;
      forall hostname
        ensures HasHostname(topo, ref, key, hostname) <==> Some(hostname) in listeners
        ensures Concatenates(names, HostnameOf(), listeners) ==> (hostname in names <==> Some(hostname) in listeners)
      {
        ListenerCount(listeners, hostname);
        ListenersInOrder(listeners);
        if Concatenates(names, HostnameOf(), listeners) {
          ConcatenatesIsUnique(names, ListenerHostnames(listeners), HostnameOf(), listeners);
        }
      }
    }
  }

  lemma CoveredIsFitting(topo: Topology, ref: TargetRef, defaultNs: string, key: ObjectKey, name: string)
    requires Denotes(key, ref.namespace, ref.name, defaultNs) && HostnamesOfTarget(topo, ref, defaultNs).Ok?
    ensures Covered(HostnamesOfTarget(topo, ref, defaultNs).value, name) <==> Fits(topo, ref, key, name)
  {
    var names := HostnamesOfTarget(topo, ref, defaultNs).value;
    ServedNames(topo, ref, defaultNs, key);
    if forall hostname :: !HasHostname(topo, ref, key, hostname) {
      EverythingFitsStar(name);
      assert SubsetOf(name, names[0]);
    } else {
      if i :| 0 <= i < |names| && SubsetOf(name, names[i]) {
        SubsetOfIsContainment(name, names[i]);
        assert names[i] in names && HasHostname(topo, ref, key, names[i]);
      }
      if hostname :| HasHostname(topo, ref, key, hostname) && Contained(name, hostname) {
        SubsetOfIsContainment(name, hostname);
        var i :| 0 <= i < |names| && names[i] == hostname;
        assert SubsetOf(name, names[i]);
      }
    }
  }

  // ----- the check -----

  /** The check passes if and only if the target is usable and every host a rule names fits
      into one of its hostnames. */
  lemma HostsPassIff(s: ClusterState, p: ObjectKey, key: ObjectKey)
    requires p in s.policies
    requires Denotes(key, s.policies[p].targetRef.namespace, s.policies[p].targetRef.name, p.namespace)
    ensures HostsError(s, p).None? <==>
      && TargetOf(s, p).Ok?
      && forall name :: NamesHost(s.policies[p].rateLimits, name) ==> Fits(s.topo, s.policies[p].targetRef, key, name)
  {
    var ref, hosts := s.policies[p].targetRef, PolicyHosts(s.policies[p].rateLimits);
    var served := HostnamesOfTarget(s.topo, ref, p.namespace);
    if served.Ok? {
      forall name
        ensures name in hosts <==> NamesHost(s.policies[p].rateLimits, name)
        ensures Covered(served.value, name) <==> Fits(s.topo, ref, key, name)
      {
        PolicyHostsMembers(s.policies[p].rateLimits, name);
        CoveredIsFitting(s.topo, ref, p.namespace, key, name);
      }
      AllCoveredMembers(served.value, hosts);
    }
  }

  lemma AllCoveredMembers(domains: seq<string>, subdomains: seq<string>)
    ensures AllCovered(domains, subdomains) <==> forall name :: name in subdomains ==> Covered(domains, name)
  {
    if AllCovered(domains, subdomains) {
      forall name | name in subdomains
        ensures Covered(domains, name)
      {
        var i :| 0 <= i < |subdomains| && subdomains[i] == name;
        assert Covered(domains, subdomains[i]);
      }
    }
  }

  lemma FittingHostIsServed(topo: Topology, ref: TargetRef, key: ObjectKey, name: string, host: string)
    requires Fits(topo, ref, key, name) && Matches(name, host)
    ensures ServesHost(topo, ref, key, host)
  {
  }

  /** Once a policy is reconciled, its target serves every concrete host that a host named
      by one of its rules matches. */
  lemma ReconciledRuleHostsAreServed(s: ClusterState, p: ObjectKey, o: Order, key: ObjectKey, name: string,
                                     host: string)
    requires Live(s, p) && Completed(s, p, o)
    requires Denotes(key, s.policies[p].targetRef.namespace, s.policies[p].targetRef.name, p.namespace)
    requires NamesHost(s.policies[p].rateLimits, name) && Matches(name, host)
    ensures ServesHost(s.topo, s.policies[p].targetRef, key, host)
  {
    LivePlan(s, p, o);
    assert HostsError(s.(finalizers := s.finalizers + {p}), p) == HostsError(s, p);
    HostsPassIff(s, p, key);
    FittingHostIsServed(s.topo, s.policies[p].targetRef, key, name, host);
  }

  /** A rejected policy gets no further than its finalizer; the host in the error is named
      by one of its rules, and reaches outside each single hostname of the target, of which
      there are some. */
  lemma RejectedRuleHostEscapes(s: ClusterState, p: ObjectKey, o: Order, key: ObjectKey, name: string)
    requires Live(s, p) && Lists(o.listing, s.topo) && Validate(s.policies[p], p.namespace)
    requires Denotes(key, s.policies[p].targetRef.namespace, s.policies[p].targetRef.name, p.namespace)
    requires HostsError(s, p) == Some(InvalidRuleHost(name))
    ensures var plan := ReconcilePlan(s, p, o);
      plan.err == Some(InvalidRuleHost(name)) && forall w :: w in plan.writes ==> w == AddFinalizer(p)
    ensures NamesHost(s.policies[p].rateLimits, name) && !Fits(s.topo, s.policies[p].targetRef, key, name)
  {
    LivePlan(s, p, o);
    assert HostsError(s.(finalizers := s.finalizers + {p}), p) == HostsError(s, p);
    var ref, hosts := s.policies[p].targetRef, PolicyHosts(s.policies[p].rateLimits);
    var served := HostnamesOfTarget(s.topo, ref, p.namespace);
    HostsErrorName(s, p, name);
    var k :| FirstUncoveredAt(served.value, hosts, k) && hosts[k] == name;
    PolicyHostsMembers(s.policies[p].rateLimits, name);
    CoveredIsFitting(s.topo, ref, p.namespace, key, name);
  }

  /** Only the host check gives this error. */
  lemma HostsErrorName(s: ClusterState, p: ObjectKey, name: string)
    requires p in s.policies && HostsError(s, p) == Some(InvalidRuleHost(name))
    ensures var served := HostnamesOfTarget(s.topo, s.policies[p].targetRef, p.namespace);
      served.Ok? && FirstUncovered(served.value, PolicyHosts(s.policies[p].rateLimits)) == Some(name)
  {
  }
}
