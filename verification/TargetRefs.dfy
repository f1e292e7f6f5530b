/** The user-owned objects (policies, routes, gateways) and the read-only half of
    pkg/reconcilers/targetref_reconciler.go: what a policy's targetRef denotes. */
module TargetRefs {
  import opened Common
  import opened Concatenations
  import opened LimitOrder
  import opened RouteRules
  import opened Sums

  datatype ParentRef = ParentRef(namespace: Option<string>, name: string, sectionName: Option<string>)

  /** `rejected`: the status condition "Accepted" is present and false. */
  datatype RouteParentStatus = RouteParentStatus(parentRef: ParentRef, rejected: bool)

  datatype HTTPRoute = HTTPRoute(
    parentRefs: seq<ParentRef>, statuses: seq<RouteParentStatus>,
    hostnames: seq<string>, rules: seq<RouteRule>)

  /** `unready`: the status condition "Ready" is present and false. */
  datatype Gateway = Gateway(listeners: seq<Option<string>>, unready: bool)

  datatype Topology = Topology(gateways: map<ObjectKey, Gateway>, routes: map<ObjectKey, HTTPRoute>)

  datatype TargetRef = TargetRef(group: string, kind: string, namespace: Option<string>, name: string)

  datatype Configuration = Configuration(actions: seq<string>)

  datatype RateLimitSpec = RateLimitSpec(configurations: seq<Configuration>, rules: seq<Rule>, limits: seq<Limit>)

  datatype Policy = Policy(targetRef: TargetRef, rateLimits: seq<RateLimitSpec>)

  /** The network object that carries a policy's direct back reference. */
  datatype Target = RouteTarget(key: ObjectKey) | GatewayTarget(key: ObjectKey)

  const GATEWAY_API_GROUP := "gateway.networking.k8s.io"

  predicate IsTargetRefHTTPRoute(ref: TargetRef) {
    ref.kind == "HTTPRoute"
  }

  predicate IsTargetRefGateway(ref: TargetRef) {
    ref.kind == "Gateway"
  }

  /** `RateLimitPolicy.Validate`, for a policy living in `namespace`. */
  predicate Validate(policy: Policy, namespace: string) {
    && policy.targetRef.group == GATEWAY_API_GROUP
    && (IsTargetRefHTTPRoute(policy.targetRef) || IsTargetRefGateway(policy.targetRef))
    && (policy.targetRef.namespace.Some? ==> policy.targetRef.namespace.value == namespace)
  }

  /** The object that a reference with an optional namespace denotes. */
  predicate Denotes(key: ObjectKey, namespace: Option<string>, name: string, defaultNs: string) {
    && key.name == name
    && (namespace.Some? ==> key.namespace == namespace.value)
    && (namespace.None? ==> key.namespace == defaultNs)
  }

  function TargetKey(ref: TargetRef, defaultNs: string): (key: ObjectKey)
    ensures Denotes(key, ref.namespace, ref.name, defaultNs)
  {
    ObjectKey(if ref.namespace.Some? then ref.namespace.value else defaultNs, ref.name)
  }

  /** A policy is valid if and only if it names a known kind of the right group, and an
      object of its own namespace. */
  lemma ValidIff(policy: Policy, namespace: string)
    ensures Validate(policy, namespace) <==>
      && policy.targetRef.group == "gateway.networking.k8s.io"
      && (policy.targetRef.kind == "HTTPRoute" || policy.targetRef.kind == "Gateway")
      && forall key :: Denotes(key, policy.targetRef.namespace, policy.targetRef.name, namespace) ==>
           key.namespace == namespace
  {
    var key := TargetKey(policy.targetRef, namespace);
    assert Denotes(key, policy.targetRef.namespace, policy.targetRef.name, namespace);
  }

  /** The first status entry for a parent decides whether that parent rejects the route. */
  predicate RejectedBy(parent: ParentRef, statuses: seq<RouteParentStatus>) {
    if statuses == [] then false
    else if statuses[0].parentRef == parent then statuses[0].rejected
    else RejectedBy(parent, statuses[1..])
  }

  lemma {:induction false} RejectedByFirst(parent: ParentRef, statuses: seq<RouteParentStatus>)
    ensures RejectedBy(parent, statuses) <==>
            exists i :: 0 <= i < |statuses| && statuses[i].parentRef == parent && statuses[i].rejected
                        && forall j :: 0 <= j < i ==> statuses[j].parentRef != parent
  {
    if statuses != [] {
      var rest := statuses[1..];
      RejectedByFirst(parent, rest);
      if statuses[0].parentRef != parent && RejectedBy(parent, rest) {
        var i :| 0 <= i < |rest| && rest[i].parentRef == parent && rest[i].rejected
                 && forall j :: 0 <= j < i ==> rest[j].parentRef != parent;
        FirstOfTail(parent, statuses, i);
      }
      if i :| 0 <= i < |statuses| && statuses[i].parentRef == parent && statuses[i].rejected
              && forall j :: 0 <= j < i ==> statuses[j].parentRef != parent {
        if i > 0 {
          assert statuses[0].parentRef != parent && rest[i - 1] == statuses[i];
          assert forall j :: 0 <= j < i - 1 ==> rest[j] == statuses[j + 1];
        }
      }
    }
  }

  lemma FirstOfTail(parent: ParentRef, statuses: seq<RouteParentStatus>, i: nat)
    requires i + 1 < |statuses| && statuses[0].parentRef != parent
    requires statuses[1..][i].parentRef == parent && statuses[1..][i].rejected
    requires forall j :: 0 <= j < i ==> statuses[1..][j].parentRef != parent
    ensures statuses[i + 1].parentRef == parent && statuses[i + 1].rejected
    ensures forall j :: 0 <= j < i + 1 ==> statuses[j].parentRef != parent
  {
    forall j | 0 <= j < i + 1
      ensures statuses[j].parentRef != parent
    {
      if j > 0 {
        assert statuses[1..][j - 1] == statuses[j];
      }
    }
  }

  /** The first status entry of one of the route's parents rejects it. */
  ghost predicate Rejected(route: HTTPRoute) {
    exists k, i :: 0 <= k < |route.parentRefs| && 0 <= i < |route.statuses|
                   && route.statuses[i].parentRef == route.parentRefs[k] && route.statuses[i].rejected
                   && forall j :: 0 <= j < i ==> route.statuses[j].parentRef != route.parentRefs[k]
  }

  function FetchValidHTTPRoute(routes: map<ObjectKey, HTTPRoute>, key: ObjectKey): Result<HTTPRoute> {
    if key !in routes then Err(NotFound)
    else
      var route := routes[key];
      if exists i :: 0 <= i < |route.parentRefs| && RejectedBy(route.parentRefs[i], route.statuses)
      then Err(RouteNotAccepted)
      else Ok(route)
  }

  /** A route is usable if it is there and none of its parents rejects it. */
  lemma UsableRouteIff(routes: map<ObjectKey, HTTPRoute>, key: ObjectKey)
    ensures FetchValidHTTPRoute(routes, key) ==
            if key !in routes then Err(NotFound)
            else if Rejected(routes[key]) then Err(RouteNotAccepted) else Ok(routes[key])
  {
    if key in routes {
      var route := routes[key];
      forall k | 0 <= k < |route.parentRefs|
        ensures RejectedBy(route.parentRefs[k], route.statuses) <==>
                exists i :: 0 <= i < |route.statuses| && route.statuses[i].parentRef == route.parentRefs[k]
                            && route.statuses[i].rejected
                            && forall j :: 0 <= j < i ==> route.statuses[j].parentRef != route.parentRefs[k]
      {
        RejectedByFirst(route.parentRefs[k], route.statuses);
      }
    }
  }

  function FetchValidGateway(gateways: map<ObjectKey, Gateway>, key: ObjectKey): Result<Gateway> {
    if key !in gateways then Err(NotFound)
    else if gateways[key].unready then Err(GatewayNotReady)
    else Ok(gateways[key])
  }

  function FetchValidTargetRef(topo: Topology, ref: TargetRef, defaultNs: string): Result<Target> {
    var key := TargetKey(ref, defaultNs);
    if IsTargetRefHTTPRoute(ref) then
      var route := FetchValidHTTPRoute(topo.routes, key);
      if route.Err? then Err(route.error) else Ok(RouteTarget(key))
    else if IsTargetRefGateway(ref) then
      var gateway := FetchValidGateway(topo.gateways, key);
      if gateway.Err? then Err(gateway.error) else Ok(GatewayTarget(key))
    else Err(UnknownTarget)
  }

  /** The object a target reference denotes, if it is usable. */
  lemma TargetMeaning(topo: Topology, ref: TargetRef, defaultNs: string, key: ObjectKey)
    requires Denotes(key, ref.namespace, ref.name, defaultNs)
    ensures FetchValidTargetRef(topo, ref, defaultNs) ==
            if ref.kind == "HTTPRoute" then
              if key !in topo.routes then Err(NotFound)
              else if Rejected(topo.routes[key]) then Err(RouteNotAccepted) else Ok(RouteTarget(key))
            else if ref.kind == "Gateway" then
              if key !in topo.gateways then Err(NotFound)
              else if topo.gateways[key].unready then Err(GatewayNotReady) else Ok(GatewayTarget(key))
            else Err(UnknownTarget)
  {
    assert key == TargetKey(ref, defaultNs);
    UsableRouteIff(topo.routes, key);
    assert "Gateway"[0] != "HTTPRoute"[0];
  }

  function ParentKey(routeNs: string, parent: ParentRef): (key: ObjectKey)
    ensures Denotes(key, parent.namespace, parent.name, routeNs)
  {
    ObjectKey(if parent.namespace.Some? then parent.namespace.value else routeNs, parent.name)
  }

  function ParentKeys(routeNs: string, parents: seq<ParentRef>): seq<ObjectKey> {
    seq(|parents|, i requires 0 <= i < |parents| => ParentKey(routeNs, parents[i]))
  }

  /** What `TargetedGatewayKeys` returns. */
  function Targeted(topo: Topology, ref: TargetRef, defaultNs: string): Result<seq<ObjectKey>> {
    var key := TargetKey(ref, defaultNs);
    if IsTargetRefHTTPRoute(ref) then
      var route := FetchValidHTTPRoute(topo.routes, key);
      if route.Err? then Err(route.error) else Ok(ParentKeys(key.namespace, route.value.parentRefs))
    else if IsTargetRefGateway(ref) then Ok([key])
    else Ok([])
  }

  /** The keys are those of the route's parents, one by one, a parent without namespace
      being looked for in the route's. */
  ghost predicate ParentsOf(keys: seq<ObjectKey>, route: HTTPRoute, routeNs: string) {
    && |keys| == |route.parentRefs|
    && forall i :: 0 <= i < |keys| ==>
         Denotes(keys[i], route.parentRefs[i].namespace, route.parentRefs[i].name, routeNs)
  }

  /** What a reference that denotes `key` targets: the parents of a usable route, the
      gateway itself, whether it exists or not, or nothing. */
  ghost predicate TargetsOf(topo: Topology, ref: TargetRef, key: ObjectKey, r: Result<seq<ObjectKey>>) {
    if ref.kind == "HTTPRoute" then
      if key !in topo.routes then r == Err(NotFound)
      else if Rejected(topo.routes[key]) then r == Err(RouteNotAccepted)
      else r.Ok? && ParentsOf(r.value, topo.routes[key], key.namespace)
    else if ref.kind == "Gateway" then r == Ok([key])
    else r == Ok([])
  }

  lemma TargetedMeaning(topo: Topology, ref: TargetRef, defaultNs: string, key: ObjectKey)
    requires Denotes(key, ref.namespace, ref.name, defaultNs)
    ensures TargetsOf(topo, ref, key, Targeted(topo, ref, defaultNs))
  {
    assert key == TargetKey(ref, defaultNs);
    UsableRouteIff(topo.routes, key);
    assert "Gateway"[0] != "HTTPRoute"[0];
  }

  method TargetedGatewayKeys(topo: Topology, ref: TargetRef, defaultNs: string) returns (r: Result<seq<ObjectKey>>)
    ensures r == Targeted(topo, ref, defaultNs)
    ensures forall key :: Denotes(key, ref.namespace, ref.name, defaultNs) ==> TargetsOf(topo, ref, key, r)
  {
    TargetedMeaning(topo, ref, defaultNs, TargetKey(ref, defaultNs));
    var gwKeys := [];
    var key := TargetKey(ref, defaultNs);
    if IsTargetRefHTTPRoute(ref) {
      var route := FetchValidHTTPRoute(topo.routes, key);
      if route.Err? {
        return Err(route.error);
      }
      var parents := route.value.parentRefs;
      for i := 0 to |parents|
        invariant gwKeys == ParentKeys(key.namespace, parents[..i])
      {
        gwKeys := gwKeys + [ParentKey(key.namespace, parents[i])];
      }
      assert parents[..|parents|] == parents;
    } else if IsTargetRefGateway(ref) {
      gwKeys := [key];
    }
    return Ok(gwKeys);
  }

  function ListenerHostnames(listeners: seq<Option<string>>): seq<string> {
    if listeners == [] then []
    else
      var last := listeners[|listeners| - 1];
      ListenerHostnames(listeners[..|listeners| - 1]) + if last.Some? then [last.value] else []
  }

  function HostnameOf(): Option<string> -> seq<string> {
    (listener: Option<string>) => if listener.Some? then [listener.value] else []
  }

  /** The hostnames of the listeners that have one, in order. */
  lemma {:induction false} ListenersInOrder(listeners: seq<Option<string>>)
    ensures Concatenates(ListenerHostnames(listeners), HostnameOf(), listeners)
  {
    if listeners != [] {
      var init, last := listeners[..|listeners| - 1], listeners[|listeners| - 1];
      assert listeners == init + [last];
      ListenersInOrder(init);
      ConcatenatesNext(ListenerHostnames(init), HostnameOf(), init, last);
      assert ListenerHostnames(init) + [] == ListenerHostnames(init);
    }
  }

  function Carries(hostname: string): Option<string> -> nat {
    listener => if listener == Some(hostname) then 1 else 0
  }

  /** A hostname occurs as often as listeners carry it. */
  lemma ListenerCount(listeners: seq<Option<string>>, hostname: string)
    ensures Count(ListenerHostnames(listeners), hostname) == Sum(Carries(hostname), listeners)
    ensures hostname in ListenerHostnames(listeners) <==> Some(hostname) in listeners
  {
    ListenersInOrder(listeners);
    ConcatenatedCount(ListenerHostnames(listeners), HostnameOf(), listeners, hostname);
    SumCongruent(Copies(HostnameOf(), hostname), Carries(hostname), listeners);
    ConcatenatedMembers(ListenerHostnames(listeners), HostnameOf(), listeners, hostname);
    if Some(hostname) in listeners {
      assert hostname in HostnameOf()(Some(hostname));
    }
  }

  lemma NoListenerHostnames(listeners: seq<Option<string>>)
    ensures ListenerHostnames(listeners) == [] <==> forall hostname :: Some(hostname) !in listeners
  {
    var hostnames := ListenerHostnames(listeners);
    if hostnames == [] {
      forall hostname
        ensures Some(hostname) !in listeners
      {
        ListenerCount(listeners, hostname);
      }
    } else {
      ListenerCount(listeners, hostnames[0]);
      assert hostnames[0] in hostnames;
    }
  }

  /** `GatewayWrapper.Hostnames`. */
  method GatewayHostnames(listeners: seq<Option<string>>) returns (hostnames: seq<string>)
    ensures hostnames == ListenerHostnames(listeners)
    ensures Concatenates(hostnames, HostnameOf(), listeners)
  {
    ListenersInOrder(listeners);
    hostnames := [];
    for i := 0 to |listeners|
      invariant hostnames == ListenerHostnames(listeners[..i])
    {
      if listeners[i].Some? {
        hostnames := hostnames + [listeners[i].value];
      }
      assert listeners[..i + 1][..i] == listeners[..i];
    }
    assert listeners[..|listeners|] == listeners;
  }

  /** What `TargetHostnames` returns. */
  function HostnamesOfTarget(topo: Topology, ref: TargetRef, defaultNs: string): (r: Result<seq<string>>)
    ensures r.Ok? ==> r.value != []
  {
    var target := FetchValidTargetRef(topo, ref, defaultNs);
    if target.Err? then Err(target.error)
    else
      var hosts := match target.value
        case RouteTarget(key) => topo.routes[key].hostnames
        case GatewayTarget(key) => ListenerHostnames(topo.gateways[key].listeners);
      Ok(if hosts == [] then ["*"] else hosts)
  }

  /** The names are those the gateway's listeners carry, in order. */
  ghost predicate ListenersServe(listeners: seq<Option<string>>, names: seq<string>) {
    if forall hostname :: Some(hostname) !in listeners then names == ["*"]
    else Concatenates(names, HostnameOf(), listeners)
  }

  /** The hostnames served by what a reference that denotes `key` targets: the route's own,
      or those the gateway's listeners carry, and '*' only where there is none. */
  ghost predicate ServedBy(topo: Topology, ref: TargetRef, key: ObjectKey, r: Result<seq<string>>) {
    if ref.kind == "HTTPRoute" then
      if key !in topo.routes then r == Err(NotFound)
      else if Rejected(topo.routes[key]) then r == Err(RouteNotAccepted)
      else if topo.routes[key].hostnames == [] then r == Ok(["*"])
      else r == Ok(topo.routes[key].hostnames)
    else if ref.kind == "Gateway" then
      if key !in topo.gateways then r == Err(NotFound)
      else if topo.gateways[key].unready then r == Err(GatewayNotReady)
      else r.Ok? && ListenersServe(topo.gateways[key].listeners, r.value)
    else r == Err(UnknownTarget)
  }

  lemma ServedHostnames(topo: Topology, ref: TargetRef, defaultNs: string, key: ObjectKey)
    requires Denotes(key, ref.namespace, ref.name, defaultNs)
    ensures ServedBy(topo, ref, key, HostnamesOfTarget(topo, ref, defaultNs))
  {
    TargetMeaning(topo, ref, defaultNs, key);
    if key in topo.gateways {
      NoListenerHostnames(topo.gateways[key].listeners);
      ListenersInOrder(topo.gateways[key].listeners);
    }
  }

  method TargetHostnames(topo: Topology, ref: TargetRef, defaultNs: string) returns (r: Result<seq<string>>)
    ensures r == HostnamesOfTarget(topo, ref, defaultNs)
    ensures r.Ok? ==> r.value != []
    ensures forall key :: Denotes(key, ref.namespace, ref.name, defaultNs) ==> ServedBy(topo, ref, key, r)
  {
    ServedHostnames(topo, ref, defaultNs, TargetKey(ref, defaultNs));
    var target := FetchValidTargetRef(topo, ref, defaultNs);
    if target.Err? {
      return Err(target.error);
    }
    var hosts;
    match target.value {
      case RouteTarget(key) => hosts := topo.routes[key].hostnames;
      case GatewayTarget(key) => hosts := GatewayHostnames(topo.gateways[key].listeners);
    }
    if |hosts| == 0 {
      hosts := ["*"];
    }
    return Ok(hosts);
  }

  /** All hosts named by the rules of a policy, in order. */
  function RuleHosts(rules: seq<Rule>): seq<string> {
    if rules == [] then [] else RuleHosts(rules[..|rules| - 1]) + rules[|rules| - 1].hosts
  }

  function PolicyHosts(rateLimits: seq<RateLimitSpec>): seq<string> {
    if rateLimits == [] then []
    else PolicyHosts(rateLimits[..|rateLimits| - 1]) + RuleHosts(rateLimits[|rateLimits| - 1].rules)
  }

  function HostsOfRule(): Rule -> seq<string> {
    (rule: Rule) => rule.hosts
  }

  function HostsOfRateLimit(): RateLimitSpec -> seq<string> {
    (rl: RateLimitSpec) => RuleHosts(rl.rules)
  }

  lemma {:induction false} RuleHostsInOrder(rules: seq<Rule>)
    ensures Concatenates(RuleHosts(rules), HostsOfRule(), rules)
  {
    if rules != [] {
      var init, last := rules[..|rules| - 1], rules[|rules| - 1];
      assert rules == init + [last];
      RuleHostsInOrder(init);
      ConcatenatesNext(RuleHosts(init), HostsOfRule(), init, last);
    }
  }

  /** The hosts of all rules of all rate limits, in order. */
  lemma {:induction false} PolicyHostsInOrder(rateLimits: seq<RateLimitSpec>)
    ensures Concatenates(PolicyHosts(rateLimits), HostsOfRateLimit(), rateLimits)
  {
    if rateLimits != [] {
      var init, last := rateLimits[..|rateLimits| - 1], rateLimits[|rateLimits| - 1];
      assert rateLimits == init + [last];
      PolicyHostsInOrder(init);
      ConcatenatesNext(PolicyHosts(init), HostsOfRateLimit(), init, last);
    }
  }

  /** One of the rules names the host. */
  ghost predicate NamesHost(rateLimits: seq<RateLimitSpec>, host: string) {
    exists rl, rule :: rl in rateLimits && rule in rl.rules && host in rule.hosts
  }

  lemma PolicyHostsMembers(rateLimits: seq<RateLimitSpec>, host: string)
    ensures host in PolicyHosts(rateLimits) <==> NamesHost(rateLimits, host)
  {
    PolicyHostsInOrder(rateLimits);
    ConcatenatedMembers(PolicyHosts(rateLimits), HostsOfRateLimit(), rateLimits, host);
    forall rl | rl in rateLimits
      ensures host in HostsOfRateLimit()(rl) <==> exists rule :: rule in rl.rules && host in rule.hosts
    {
      RuleHostsInOrder(rl.rules);
      ConcatenatedMembers(RuleHosts(rl.rules), HostsOfRule(), rl.rules, host);
      forall rule: Rule
        ensures host in HostsOfRule()(rule) <==> host in rule.hosts
      {
      }
    }
  }

  /** The loops of `validateRuleHosts` that collect them. */
  method CollectRuleHosts(rateLimits: seq<RateLimitSpec>) returns (hosts: seq<string>)
    ensures hosts == PolicyHosts(rateLimits)
    ensures forall host :: host in hosts <==> NamesHost(rateLimits, host)
  {
    forall host
      ensures host in PolicyHosts(rateLimits) <==> NamesHost(rateLimits, host)
    {
      PolicyHostsMembers(rateLimits, host);
    }
    hosts := [];
    for i := 0 to |rateLimits|
      invariant hosts == PolicyHosts(rateLimits[..i])
    {
      assert rateLimits[..i + 1][..i] == rateLimits[..i];
      var rules := rateLimits[i].rules;
      assert hosts == PolicyHosts(rateLimits[..i]) + RuleHosts(rules[..0]);
      for j := 0 to |rules|
        invariant hosts == PolicyHosts(rateLimits[..i]) + RuleHosts(rules[..j])
      {
        assert rules[..j + 1][..j] == rules[..j];
        hosts := hosts + rules[j].hosts;
      }
      assert rules[..|rules|] == rules;
    }
    assert rateLimits[..|rateLimits|] == rateLimits;
  }
}
