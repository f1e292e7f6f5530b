/** pkg/common/gatewayapi_utils.go: compiling an HTTPRoute into policy rules,
    and when the compiled rules accept what the route accepts. */
module RouteRules {
  import opened Common
  import opened Concatenations
  import opened Hostnames

  datatype PathMatchType = Exact | PathPrefix | RegularExpression

  datatype HTTPPathMatch = HTTPPathMatch(matchType: Option<PathMatchType>, value: Option<string>)

  datatype HTTPRouteMatch = HTTPRouteMatch(
    path: Option<HTTPPathMatch>, httpMethod: Option<string>, headers: map<string, string>)

  /** A rule of a policy; an empty field puts no condition on the request. */
  datatype Rule = Rule(paths: seq<string>, methods: seq<string>, hosts: seq<string>)

  type RouteRule = seq<HTTPRouteMatch>

  // ----- the compilation -----

  function RouteHostnames(hostnames: seq<string>): seq<string> {
    if hostnames == [] then ["*"] else hostnames
  }

  function RuleMethods(m: Option<string>): seq<string> {
    if m.None? then [] else [m.value]
  }

  function RulePaths(p: Option<HTTPPathMatch>): seq<string> {
    if p.None? then []
    else if p.value.matchType == Some(RegularExpression) then []
    else
      var suffix := if p.value.matchType == Some(Exact) then "" else "*";
      var val := if p.value.value.Some? then p.value.value.value else "/";
      [val + suffix]
  }

  /** Whether a match contributes a rule: it names a method or a supported path. */
  predicate Kept(m: HTTPRouteMatch) {
    RuleMethods(m.httpMethod) != [] || RulePaths(m.path) != []
  }

  function RuleOf(hostnames: seq<string>, m: HTTPRouteMatch): Rule {
    Rule(RulePaths(m.path), RuleMethods(m.httpMethod), RouteHostnames(hostnames))
  }

  function KeptRules(hostnames: seq<string>, matches: seq<HTTPRouteMatch>): seq<Rule> {
    if matches == [] then []
    else
      var last := matches[|matches| - 1];
      KeptRules(hostnames, matches[..|matches| - 1]) + if Kept(last) then [RuleOf(hostnames, last)] else []
  }

  function Flatten(rules: seq<RouteRule>): seq<HTTPRouteMatch> {
    if rules == [] then [] else Flatten(rules[..|rules| - 1]) + rules[|rules| - 1]
  }

  function MatchesOfRule(): RouteRule -> seq<HTTPRouteMatch> {
    rule => rule
  }

  /** All matches of all rules, rule by rule. */
  lemma {:induction false} FlattenedInOrder(rules: seq<RouteRule>)
    ensures Concatenates(Flatten(rules), MatchesOfRule(), rules)
  {
    if rules != [] {
      var init, last := rules[..|rules| - 1], rules[|rules| - 1];
      assert rules == init + [last];
      FlattenedInOrder(init);
      ConcatenatesNext(Flatten(init), MatchesOfRule(), init, last);
    }
  }

  /** A match of one of the route's rules. */
  ghost predicate HasMatch(rules: seq<RouteRule>, m: HTTPRouteMatch) {
    exists rule :: rule in rules && m in rule
  }

  lemma FlattenedMembers(rules: seq<RouteRule>)
    ensures forall m :: m in Flatten(rules) <==> HasMatch(rules, m)
  {
    forall m
      ensures m in Flatten(rules) <==> HasMatch(rules, m)
    {
      FlattenedInOrder(rules);
      ConcatenatedMembers(Flatten(rules), MatchesOfRule(), rules, m);
      if rule :| rule in rules && m in MatchesOfRule()(rule) {
        assert m in rule;
      }
      if rule :| rule in rules && m in rule {
        assert m in MatchesOfRule()(rule);
      }
    }
  }

  /** Never empty: a route without supported matches still gives one rule for its hosts. */
  function RulesOfRoute(hostnames: seq<string>, rules: seq<RouteRule>): (r: seq<Rule>)
    ensures |r| > 0
  {
    var kept := KeptRules(hostnames, Flatten(rules));
    if kept == [] then [Rule([], [], RouteHostnames(hostnames))] else kept
  }

  method RulesFromHTTPRoute(hostnames: seq<string>, routeRules: seq<RouteRule>) returns (rules: seq<Rule>)
    ensures rules == RulesOfRoute(hostnames, routeRules)
    ensures forall r :: SomeMatchReads(hostnames, routeRules, r) ==> SomeRuleAccepts(rules, r)
    ensures forall r :: NoneStarred(routeRules) && SomeRuleAccepts(rules, r) ==>
        SomeMatchReads(hostnames, routeRules, r)
  {
    forall r: Request
      ensures SomeMatchReads(hostnames, routeRules, r) ==> SomeRuleAccepts(RulesOfRoute(hostnames, routeRules), r)
      ensures NoneStarred(routeRules) && SomeRuleAccepts(RulesOfRoute(hostnames, routeRules), r) ==>
              SomeMatchReads(hostnames, routeRules, r)
    {
      CompiledRulesAccept(hostnames, routeRules, r);
    }
    rules := [];
    for i := 0 to |routeRules|
      invariant rules == KeptRules(hostnames, Flatten(routeRules[..i]))
    {
      assert Flatten(routeRules[..i]) + routeRules[i][..0] == Flatten(routeRules[..i]);
      for j := 0 to |routeRules[i]|
        invariant rules == KeptRules(hostnames, Flatten(routeRules[..i]) + routeRules[i][..j])
      {
        var m := routeRules[i][j];
        var rule := Rule(RulePaths(m.path), RuleMethods(m.httpMethod), RouteHostnames(hostnames));
        ghost var seen := Flatten(routeRules[..i]) + routeRules[i][..j];
        assert Flatten(routeRules[..i]) + routeRules[i][..j + 1] == seen + [m];
        assert (seen + [m])[..|seen|] == seen;
        if |rule.methods| != 0 || |rule.paths| != 0 {
          rules := rules + [rule];
        }
      }
      assert routeRules[..i + 1][..i] == routeRules[..i];
      assert routeRules[i][..|routeRules[i]|] == routeRules[i];
    }
    assert routeRules[..|routeRules|] == routeRules;
    if |rules| == 0 {
      rules := [Rule([], [], RouteHostnames(hostnames))];
    }
  }

  // ----- what route and rules accept -----

  datatype Request = Request(host: string, httpMethod: string, path: string, headers: map<string, string>)

  predicate HasPrefix(s: string, prefix: string) {
    prefix <= s
  }

  /** The path of every request starts with a slash. */
  predicate Rooted(path: string) {
    |path| > 0 && path[0] == '/'
  }

  /** Reading of a route's path match; `regex` stands for the gateway's own
      regular-expression engine. */
  ghost predicate PathAccepted(p: HTTPPathMatch, path: string, regex: (string, string) -> bool) {
    var val := if p.value.Some? then p.value.value else "/";
    if p.matchType == Some(RegularExpression) then regex(val, path)
    else if p.matchType == Some(Exact) then path == val
    else HasPrefix(path, val)
  }

  ghost predicate MatchAccepts(m: HTTPRouteMatch, r: Request, regex: (string, string) -> bool) {
    && (m.httpMethod.Some? ==> r.httpMethod == m.httpMethod.value)
    && (m.path.Some? ==> PathAccepted(m.path.value, r.path, regex))
    && forall h :: h in m.headers ==> h in r.headers && r.headers[h] == m.headers[h]
  }

  /** A rule path with a trailing '*' is a string prefix, any other one is literal. */
  ghost predicate RulePathAccepts(rulePath: string, path: string) {
    if |rulePath| > 0 && rulePath[|rulePath| - 1] == '*' then HasPrefix(path, rulePath[..|rulePath| - 1])
    else path == rulePath
  }

  ghost predicate RuleAccepts(rule: Rule, r: Request) {
    && (rule.hosts == [] || exists h :: h in rule.hosts && Matches(h, r.host))
    && (rule.methods == [] || r.httpMethod in rule.methods)
    && (rule.paths == [] || exists p :: p in rule.paths && RulePathAccepts(p, r.path))
  }

  /** A concrete host that the route serves: any, if it names none. */
  ghost predicate OnRoute(hostnames: seq<string>, r: Request) {
    !IsWildCarded(r.host) && (hostnames == [] || exists h :: h in hostnames && Matches(h, r.host))
  }

  lemma RouteHostnamesMeaning(hostnames: seq<string>, r: Request)
    ensures RouteHostnames(hostnames) != []
    ensures OnRoute(hostnames, r) <==> exists h :: h in RouteHostnames(hostnames) && Matches(h, r.host)
  {
    if hostnames == [] && !IsWildCarded(r.host) {
      assert "*"[1..] == "" && Matches("*", r.host);
      assert "*" in RouteHostnames(hostnames);
    }
  }

  ghost predicate SomeRuleAccepts(rules: seq<Rule>, r: Request) {
    exists rule :: rule in rules && RuleAccepts(rule, r)
  }

  /** Every request some listed match accepts on a route hostname is accepted by some
      rule; the path of a request starts with a slash. */
  ghost predicate Covers(hostnames: seq<string>, rules: seq<RouteRule>, regex: (string, string) -> bool) {
    forall r: Request, m ::
      HasMatch(rules, m) && Rooted(r.path) && OnRoute(hostnames, r) && MatchAccepts(m, r, regex)
      ==> SomeRuleAccepts(RulesOfRoute(hostnames, rules), r)
  }

  /** A match that names a method or an Exact or Prefix path. */
  predicate Supported(m: HTTPRouteMatch) {
    m.httpMethod.Some? || (m.path.Some? && m.path.value.matchType != Some(RegularExpression))
  }

  function MatchValue(p: HTTPPathMatch): string {
    if p.value.Some? then p.value.value else "/"
  }

  predicate EndsInStar(s: string) {
    |s| > 0 && s[|s| - 1] == '*'
  }

  /** What becomes of a path match: nothing if it is a regular expression, else one rule
      path, read as a prefix or, for Exact values that do not end in '*', literally. */
  lemma RulePathsMeaning(p: HTTPPathMatch, path: string)
    ensures RulePaths(None) == []
    ensures p.matchType == Some(RegularExpression) ==> RulePaths(Some(p)) == []
    ensures p.matchType != Some(RegularExpression) ==>
      && |RulePaths(Some(p))| == 1
      && (RulePathAccepts(RulePaths(Some(p))[0], path) <==>
          if p.matchType != Some(Exact) then HasPrefix(path, MatchValue(p))
          else if EndsInStar(MatchValue(p)) then HasPrefix(path, MatchValue(p)[..|MatchValue(p)| - 1])
          else path == MatchValue(p))
  {
    if p.matchType != Some(RegularExpression) && p.matchType != Some(Exact) {
      var rulePath := MatchValue(p) + "*";
      assert RulePaths(Some(p)) == [rulePath];
      assert rulePath[..|rulePath| - 1] == MatchValue(p);
    }
  }

  lemma KeptIsSupported(m: HTTPRouteMatch)
    ensures Kept(m) <==> Supported(m)
  {
    if m.path.Some? {
      RulePathsMeaning(m.path.value, "");
    }
  }

  lemma {:induction false} KeptRulesMembers(hostnames: seq<string>, matches: seq<HTTPRouteMatch>)
    ensures forall m :: m in matches && Supported(m) ==> RuleOf(hostnames, m) in KeptRules(hostnames, matches)
    ensures forall rule :: rule in KeptRules(hostnames, matches) ==>
      exists m :: m in matches && Supported(m) && rule == RuleOf(hostnames, m)
  {
    if matches != [] {
      var init, last := matches[..|matches| - 1], matches[|matches| - 1];
      KeptRulesMembers(hostnames, init);
      KeptIsSupported(last);
      assert matches == init + [last];
      forall rule | rule in KeptRules(hostnames, matches)
        ensures exists m :: m in matches && Supported(m) && rule == RuleOf(hostnames, m)
      {
        if rule in KeptRules(hostnames, init) {
          var m :| m in init && Supported(m) && rule == RuleOf(hostnames, m);
          assert m in matches;
        } else {
          assert last in matches;
        }
      }
    }
  }

  /** What the compiled rule is to accept: requests on the route's hosts, with the method
      the match names, on a path its Exact or Prefix path accepts. */
  ghost predicate Reads(hostnames: seq<string>, m: HTTPRouteMatch, r: Request) {
    && OnRoute(hostnames, r)
    && (m.httpMethod.Some? ==> r.httpMethod == m.httpMethod.value)
    && (m.path.Some? && m.path.value.matchType != Some(RegularExpression) ==>
          PathAccepted(m.path.value, r.path, (val, path) => false))
  }

  /** An Exact path whose value ends in '*', which a rule takes for a prefix. */
  predicate StarredExact(m: HTTPRouteMatch) {
    m.path.Some? && m.path.value.matchType == Some(Exact) && EndsInStar(MatchValue(m.path.value))
  }

  lemma RuleAcceptsParts(hostnames: seq<string>, m: HTTPRouteMatch, r: Request)
    ensures RuleAccepts(RuleOf(hostnames, m), r) <==>
      && OnRoute(hostnames, r)
      && (m.httpMethod.Some? ==> r.httpMethod == m.httpMethod.value)
      && (RulePaths(m.path) == [] || RulePathAccepts(RulePaths(m.path)[0], r.path))
  {
    RouteHostnamesMeaning(hostnames, r);
    MethodsPart(m, r);
    PathsPart(m, r);
  }

  lemma MethodsPart(m: HTTPRouteMatch, r: Request)
    ensures (RuleMethods(m.httpMethod) == [] || r.httpMethod in RuleMethods(m.httpMethod)) <==>
            (m.httpMethod.Some? ==> r.httpMethod == m.httpMethod.value)
  {
  }

  lemma PathsPart(m: HTTPRouteMatch, r: Request)
    ensures var paths := RulePaths(m.path);
      (paths == [] || exists p :: p in paths && RulePathAccepts(p, r.path)) <==>
      (paths == [] || RulePathAccepts(paths[0], r.path))
  {
    var paths := RulePaths(m.path);
    assert |paths| <= 1;
    if |paths| == 1 {
      assert paths[0] in paths && forall p :: p in paths ==> p == paths[0];
    }
  }

  /** The rule compiled from a match accepts exactly that, unless an Exact value ends in
      '*'; then it accepts that and more. */
  lemma RuleReadsItsMatch(hostnames: seq<string>, m: HTTPRouteMatch, r: Request)
    ensures Reads(hostnames, m, r) ==> RuleAccepts(RuleOf(hostnames, m), r)
    ensures !StarredExact(m) && RuleAccepts(RuleOf(hostnames, m), r) ==> Reads(hostnames, m, r)
  {
    RuleAcceptsParts(hostnames, m, r);
    if m.path.Some? {
      RulePathsMeaning(m.path.value, r.path);
    }
  }

  /** A request that the compiled rule accepts although the Exact path does not. */
  lemma StarredExactAcceptsMore(hostnames: seq<string>, m: HTTPRouteMatch) returns (r: Request)
    requires StarredExact(m)
    ensures RuleAccepts(RuleOf(hostnames, m), r) && !Reads(hostnames, m, r)
  {
    var host := RouteHasAHost(hostnames);
    var val := MatchValue(m.path.value);
    r := Request(host, if m.httpMethod.Some? then m.httpMethod.value else "GET", val[..|val| - 1], map[]);
    RouteHostnamesMeaning(hostnames, r);
    RuleAcceptsParts(hostnames, m, r);
    RulePathsMeaning(m.path.value, r.path);
  }

  /** A compiled rule is exact, for every request, if and only if its match is not an Exact
      path ending in '*'. */
  lemma RuleIsExactIff(hostnames: seq<string>, m: HTTPRouteMatch)
    ensures (forall r :: RuleAccepts(RuleOf(hostnames, m), r) <==> Reads(hostnames, m, r)) <==> !StarredExact(m)
  {
    if StarredExact(m) {
      var r := StarredExactAcceptsMore(hostnames, m);
      assert RuleAccepts(RuleOf(hostnames, m), r) && !Reads(hostnames, m, r);
    } else {
      forall r: Request
        ensures RuleAccepts(RuleOf(hostnames, m), r) <==> Reads(hostnames, m, r)
      {
        RuleReadsItsMatch(hostnames, m, r);
      }
    }
  }

  /** The rule compiled from a match accepts whatever the match accepts. */
  lemma RuleCoversItsMatch(hostnames: seq<string>, m: HTTPRouteMatch, r: Request, regex: (string, string) -> bool)
    requires OnRoute(hostnames, r) && MatchAccepts(m, r, regex)
    ensures RuleAccepts(RuleOf(hostnames, m), r)
  {
    RuleReadsItsMatch(hostnames, m, r);
  }

  function KeptRuleOf(hostnames: seq<string>): HTTPRouteMatch -> seq<Rule> {
    m => if Supported(m) then [RuleOf(hostnames, m)] else []
  }

  /** The rules of the supported matches, in order. */
  lemma {:induction false} KeptRulesInOrder(hostnames: seq<string>, matches: seq<HTTPRouteMatch>)
    ensures Concatenates(KeptRules(hostnames, matches), KeptRuleOf(hostnames), matches)
  {
    if matches != [] {
      var init, last := matches[..|matches| - 1], matches[|matches| - 1];
      assert matches == init + [last];
      KeptIsSupported(last);
      KeptRulesInOrder(hostnames, init);
      ConcatenatesNext(KeptRules(hostnames, init), KeptRuleOf(hostnames), init, last);
    }
  }

  lemma {:induction false} NothingKept(hostnames: seq<string>, matches: seq<HTTPRouteMatch>)
    requires forall m :: m in matches ==> !Supported(m)
    ensures KeptRules(hostnames, matches) == []
  {
    if matches != [] {
      var init, last := matches[..|matches| - 1], matches[|matches| - 1];
      assert matches == init + [last];
      KeptIsSupported(last);
      NothingKept(hostnames, init);
    }
  }

  ghost predicate SomeSupported(rules: seq<RouteRule>) {
    exists m :: HasMatch(rules, m) && Supported(m)
  }

  ghost predicate NoneStarred(rules: seq<RouteRule>) {
    forall m :: HasMatch(rules, m) ==> !StarredExact(m)
  }

  /** One of the route's supported matches reads the request; or the route has none, and
      the request is on its hosts. */
  ghost predicate SomeMatchReads(hostnames: seq<string>, rules: seq<RouteRule>, r: Request) {
    if SomeSupported(rules) then exists m :: HasMatch(rules, m) && Supported(m) && Reads(hostnames, m, r)
    else OnRoute(hostnames, r)
  }

  /** That is what the rules of a route accept together, and nothing else unless an Exact
      value ends in '*'. */
  lemma CompiledRulesAccept(hostnames: seq<string>, rules: seq<RouteRule>, r: Request)
    ensures SomeMatchReads(hostnames, rules, r) ==> SomeRuleAccepts(RulesOfRoute(hostnames, rules), r)
    ensures NoneStarred(rules) && SomeRuleAccepts(RulesOfRoute(hostnames, rules), r) ==>
            SomeMatchReads(hostnames, rules, r)
  {
    var compiled := RulesOfRoute(hostnames, rules);
    KeptRulesMembers(hostnames, Flatten(rules));
    FlattenedMembers(rules);
    if SomeSupported(rules) {
      if rule :| NoneStarred(rules) && rule in compiled && RuleAccepts(rule, r) {
        var m :| HasMatch(rules, m) && Supported(m) && rule == RuleOf(hostnames, m);
        RuleReadsItsMatch(hostnames, m, r);
      }
      if m :| HasMatch(rules, m) && Supported(m) && Reads(hostnames, m, r) {
        RuleReadsItsMatch(hostnames, m, r);
        assert RuleOf(hostnames, m) in compiled;
      }
    } else {
      RouteHostnamesMeaning(hostnames, r);
      NothingKept(hostnames, Flatten(rules));
      assert compiled[0] in compiled && forall rule :: rule in compiled ==> rule == compiled[0];
    }
  }

  /** Either every listed match contributes a rule, or none does. */
  ghost predicate Uniform(rules: seq<RouteRule>) {
    (forall m :: HasMatch(rules, m) ==> Supported(m)) || (forall m :: HasMatch(rules, m) ==> !Supported(m))
  }

  lemma UniformRoutesAreCovered(hostnames: seq<string>, rules: seq<RouteRule>, regex: (string, string) -> bool)
    requires Uniform(rules)
    ensures Covers(hostnames, rules, regex)
  {
    var compiled := RulesOfRoute(hostnames, rules);
    KeptRulesMembers(hostnames, Flatten(rules));
    FlattenedMembers(rules);
    forall r: Request, m |
      HasMatch(rules, m) && Rooted(r.path) && OnRoute(hostnames, r) && MatchAccepts(m, r, regex)
      ensures SomeRuleAccepts(compiled, r)
    {
      if Supported(m) {
        RuleCoversItsMatch(hostnames, m, r, regex);
        assert RuleOf(hostnames, m) in compiled;
      } else {
        RouteHostnamesMeaning(hostnames, r);
        assert compiled[0] in compiled && RuleAccepts(compiled[0], r);
      }
    }
  }

  lemma RouteHasAHost(hostnames: seq<string>) returns (host: string)
    ensures exists h :: h in RouteHostnames(hostnames) && Matches(h, host)
  {
    var h := RouteHostnames(hostnames)[0];
    host := if IsWildCarded(h) then "x" + h[1..] else h;
    assert IsWildCarded(h) ==> host[1..] == h[1..];
    assert h in RouteHostnames(hostnames) && Matches(h, host);
  }

  /** A method longer than every method the matches name. */
  function FreshMethod(matches: seq<HTTPRouteMatch>): (name: string)
    ensures forall m :: m in matches && m.httpMethod.Some? ==> |m.httpMethod.value| < |name|
  {
    if matches == [] then "x"
    else
      var init, last := matches[..|matches| - 1], matches[|matches| - 1];
      assert matches == init + [last];
      FreshMethod(init) + if last.httpMethod.Some? then last.httpMethod.value + "x" else "x"
  }

  /** A rule without method condition accepts the path. */
  ghost predicate CaughtPath(rules: seq<RouteRule>, path: string) {
    exists m :: HasMatch(rules, m) && m.httpMethod.None? && RulePaths(m.path) != []
                && RulePathAccepts(RulePaths(m.path)[0], path)
  }

  /** The rules without method condition accept every path between them. */
  ghost predicate CatchesAll(rules: seq<RouteRule>) {
    forall path :: Rooted(path) ==> CaughtPath(rules, path)
  }

  /** The same for the finitely many paths of at most `n` characters. */
  ghost predicate CatchesUpTo(rules: seq<RouteRule>, n: nat) {
    forall path :: Rooted(path) && |path| <= n ==> CaughtPath(rules, path)
  }

  /** The length of the longest path among the compiled rules. */
  function LongestRulePath(matches: seq<HTTPRouteMatch>): (n: nat)
    ensures forall m :: m in matches && RulePaths(m.path) != [] ==> |RulePaths(m.path)[0]| <= n
  {
    if matches == [] then 0
    else
      var init, last := matches[..|matches| - 1], matches[|matches| - 1];
      assert matches == init + [last];
      var before := LongestRulePath(init);
      var len := if RulePaths(last.path) == [] then 0 else |RulePaths(last.path)[0]|;
      if len > before then len else before
  }

  /** A rule path that accepts a beginning longer than itself is a prefix of it. */
  lemma LongerPathsToo(rulePath: string, path: string, n: nat)
    requires |rulePath| < n <= |path| && RulePathAccepts(rulePath, path[..n])
    ensures RulePathAccepts(rulePath, path)
  {
    assert |path[..n]| == n;
    var prefix := rulePath[..|rulePath| - 1];
    assert path[..n][..|prefix|] == path[..|prefix|];
  }

  lemma CaughtEarly(rules: seq<RouteRule>, path: string, n: nat)
    requires LongestRulePath(Flatten(rules)) < n <= |path| && CaughtPath(rules, path[..n])
    ensures CaughtPath(rules, path)
  {
    FlattenedMembers(rules);
    var m :| HasMatch(rules, m) && m.httpMethod.None? && RulePaths(m.path) != []
             && RulePathAccepts(RulePaths(m.path)[0], path[..n]);
    LongerPathsToo(RulePaths(m.path)[0], path, n);
  }

  lemma ShortPathCaught(rules: seq<RouteRule>, path: string, n: nat)
    requires CatchesUpTo(rules, n) && |path| <= n && Rooted(path)
    ensures CaughtPath(rules, path)
  {
  }

  lemma SameBeginning(path: string, n: nat)
    requires Rooted(path) && 0 < n <= |path|
    ensures Rooted(path[..n])
  {
    assert path[..n][0] == path[0];
  }

  lemma AnyPathCaught(rules: seq<RouteRule>, path: string, n: nat)
    requires CatchesUpTo(rules, n) && LongestRulePath(Flatten(rules)) < n && Rooted(path)
    ensures CaughtPath(rules, path)
  {
    if |path| <= n {
      ShortPathCaught(rules, path, n);
    } else {
      SameBeginning(path, n);
      ShortPathCaught(rules, path[..n], n);
      CaughtEarly(rules, path, n);
    }
  }

  /** Paths one character longer than the longest rule path decide about all others:
      there only prefix rules accept. */
  lemma ShortPathsSuffice(rules: seq<RouteRule>)
    ensures CatchesAll(rules) <==> CatchesUpTo(rules, LongestRulePath(Flatten(rules)) + 1)
  {
    var n := LongestRulePath(Flatten(rules)) + 1;
    if CatchesUpTo(rules, n) {
      AllPathsCaught(rules, n);
    } else {
      var path :| Rooted(path) && |path| <= n && !CaughtPath(rules, path);
    }
  }

  lemma AllPathsCaught(rules: seq<RouteRule>, n: nat)
    requires CatchesUpTo(rules, n) && LongestRulePath(Flatten(rules)) < n
    ensures CatchesAll(rules)
  {
    forall path | Rooted(path)
      ensures CaughtPath(rules, path)
    {
      AnyPathCaught(rules, path, n);
    }
  }

  /** One match on the default path, the prefix "/", is enough for that. */
  lemma RootPrefixCatchesAll(rules: seq<RouteRule>, m: HTTPRouteMatch)
    requires HasMatch(rules, m) && m.httpMethod.None? && m.path.Some? && MatchValue(m.path.value) == "/"
    requires m.path.value.matchType.None? || m.path.value.matchType == Some(PathPrefix)
    ensures CatchesAll(rules)
  {
    forall path | Rooted(path)
      ensures CaughtPath(rules, path)
    {
      RulePathsMeaning(m.path.value, path);
      assert "/" <= path;
    }
  }

  lemma CaughtRoutesAreCovered(hostnames: seq<string>, rules: seq<RouteRule>, regex: (string, string) -> bool)
    requires CatchesAll(rules)
    ensures Covers(hostnames, rules, regex)
  {
    var compiled := RulesOfRoute(hostnames, rules);
    KeptRulesMembers(hostnames, Flatten(rules));
    FlattenedMembers(rules);
    forall r: Request, m |
      HasMatch(rules, m) && Rooted(r.path) && OnRoute(hostnames, r) && MatchAccepts(m, r, regex)
      ensures SomeRuleAccepts(compiled, r)
    {
      assert CaughtPath(rules, r.path);
      var k :| HasMatch(rules, k) && k.httpMethod.None? && RulePaths(k.path) != []
               && RulePathAccepts(RulePaths(k.path)[0], r.path);
      RuleAcceptsParts(hostnames, k, r);
      KeptIsSupported(k);
      assert RuleOf(hostnames, k) in compiled && RuleAccepts(RuleOf(hostnames, k), r);
    }
  }

  lemma RuleRejects(hostnames: seq<string>, m: HTTPRouteMatch, r: Request)
    requires Supported(m)
    requires m.httpMethod.Some? ==> m.httpMethod.value != r.httpMethod
    requires m.httpMethod.None? && RulePaths(m.path) != [] ==> !RulePathAccepts(RulePaths(m.path)[0], r.path)
    ensures !RuleAccepts(RuleOf(hostnames, m), r)
  {
    RuleAcceptsParts(hostnames, m, r);
    KeptIsSupported(m);
  }

  /** When a match is dropped beside kept ones, a request with a new method, on a path
      that no rule without method condition accepts, passes the route and no rule. */
  lemma DroppedMatchEscapes(hostnames: seq<string>, rules: seq<RouteRule>, dropped: HTTPRouteMatch, path: string)
    requires HasMatch(rules, dropped) && !Supported(dropped) && !Uniform(rules)
    requires Rooted(path) && !CaughtPath(rules, path)
    ensures !Covers(hostnames, rules, (val, path) => true)
  {
    var regex := (val: string, path: string) => true;
    var matches := Flatten(rules);
    FlattenedMembers(rules);
    var compiled := RulesOfRoute(hostnames, rules);
    var host := RouteHasAHost(hostnames);
    var r := Request(host, FreshMethod(matches), path, dropped.headers);
    assert MatchAccepts(dropped, r, regex);
    KeptRulesMembers(hostnames, matches);
    var kept :| kept in matches && Supported(kept);
    assert RuleOf(hostnames, kept) in KeptRules(hostnames, matches);
    RouteHostnamesMeaning(hostnames, r);
    forall rule | rule in compiled
      ensures !RuleAccepts(rule, r)
    {
      var m :| m in matches && Supported(m) && rule == RuleOf(hostnames, m);
      RuleRejects(hostnames, m, r);
    }
  }

  /** The compiled rules cover the route, under every regular-expression engine,
      exactly when the route is uniform or its rules without method condition already
      accept every path; paths one longer than the longest rule path tell. */
  lemma CoverageCondition(hostnames: seq<string>, rules: seq<RouteRule>)
    ensures (forall regex :: Covers(hostnames, rules, regex)) <==>
            Uniform(rules) || CatchesUpTo(rules, LongestRulePath(Flatten(rules)) + 1)
  {
    ShortPathsSuffice(rules);
    if Uniform(rules) || CatchesAll(rules) {
      forall regex: (string, string) -> bool
        ensures Covers(hostnames, rules, regex)
      {
        if Uniform(rules) {
          UniformRoutesAreCovered(hostnames, rules, regex);
        } else {
          CaughtRoutesAreCovered(hostnames, rules, regex);
        }
      }
    } else {
      var dropped :| HasMatch(rules, dropped) && !Supported(dropped);
      var path :| Rooted(path) && !CaughtPath(rules, path);
      DroppedMatchEscapes(hostnames, rules, dropped, path);
    }
  }
}
