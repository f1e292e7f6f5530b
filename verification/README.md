# RateLimitPolicy control loop: a verified model

The Kuadrant controller watches `RateLimitPolicy` objects (RLPs). Each one targets a Gateway or an
HTTPRoute. For every gateway the controller keeps

* the gateway's limits, as part of one flat list in the shared Limitador resource,
* one WASM plugin that sends each request to the right rate limit domain,
* one EnvoyFilter that lets the gateway reach Limitador,
* an annotation listing the policies that apply to the gateway (its references),

and on every target an annotation naming the policy that owns it (the back reference).

The modules follow the repository's files:

| module | models |
|---|---|
| `Common` | results, errors, object keys |
| `LimitOrder`, `Namespaces`, `LimitIndexes` | the limit comparator and its sort, the `ns/name#domain` strings, the two-level index |
| `Hostnames`, `RouteRules` | hostname containment, compiling routes into rules |
| `TargetRefs`, `Merging`, `WasmPlugins` | targets of a policy, the two merges over a gateway's references |
| `MergeLaws`, `ActionLaws`, `SharedDomains` | what the two merges compute, counted in the policies' own fields, and why they agree |
| `Sums`, `Concatenations` | sums over a list, and lists put together from parts: the means to state what the loops append |
| `GatewayRefs` | the reference annotation and the split into new, same and left gateways |
| `Cluster`, `Plans`, `Reconcilers` | the cluster, the writes of a run in order, the reconciler itself |
| `Effects`, `FinalizeEffects` | what a completed reconcile or finalize leaves behind |
| `Completion` | when a reconcile or a finalize completes |
| `SecondRun`, `Artefacts`, `ServedLimits`, `StageOrders`, `LimitWrites`, `RuleHostCheck` | theorems about single runs, and about a run repeated at once |
| `EmptyMerges`, `Restoration`, `Leftovers`, `ForeignEntries` | policies that leave a gateway: whose limits go, how they come back, what a finalize leaves behind; what happens to other users' entries in Limitador |
| `LockProtocol`, `GatewayPolicyUniqueness` | the back reference as a lock |
| `Convergence`, `ConvergedArtefacts`, `InterruptedRuns` | sequences of completed runs: two rounds settle references, limits, filters and plugins, also after interrupted runs |
| `Progress`, `Recovery` | the same without assuming that anything completes: invalid policies and policies that lost the race for their target fail on their own |
| `SmallClusters`, `OnePolicy`, `Counterexamples`, `StolenLock` | concrete clusters: one that meets the hypotheses of the convergence theorem, and one for each result below |

How the parts fit. `Reconcilers.Reconciler` is written step by step, as the Go code is: loops over
gateways, writes to the API server that may be refused, an early return after each refusal. Its
`Reconcile` is proved to perform a *plan*: a function of the state it starts in that lists the writes
of the whole run and the error it ends with. Either the whole plan is carried out, or a proper prefix
of it followed by one refused write. All theorems about runs, interrupted runs and sequences of runs
are about these plans, for every order in which gateways may be listed and in which two Go maps may be
visited: the index when it is printed, and the domains of each plugin. All three are carried by
`Order`.

The theorems compose. The comparator is a total order, so a sorted list is unique, so
`SameLimitList` decides equality as multisets, so `LimitIndex.Equals` decides equality of the printed
lists whatever the map order, so a second reconcile writes no limits. Together with the references
it finds in place it writes nothing but plugins whose policies come in another order. Two rounds over
all policies converge to one state in any order, from every cluster that interrupted runs can leave
behind.

Convergence does not rest on reconciles completing. A policy that may take its target, or
has it, gets through in every order (`Progress.AdmittedCompletes`); every other one writes its
finalizer and nothing else (`Progress.RefusedWrites`). So two rounds of attempts converge, for the
policies that hold their targets (`Progress.AttemptsConverge`, `Recovery.InterruptedRunsRecover`).

Results where the code does not do what one would expect, each with its exact condition and, unless
said otherwise, a concrete input:

* A reconcile repeated at once may update plugins again. Each plugin is listed by visiting a Go map, and
  `WASMPluginMutator` compares the lists in order. The second run is idle for every order if and only
  if the policies of each targeted gateway are merged under at most one domain
  (`SecondRun.SecondRunIsQuietIff`); `Counterexamples.SecondRunWrites` shows a gateway with two.
* `DeleteTargetBackReference` removes the annotation without comparing it with the policy's key. A
  policy that lost the race for its target and is then deleted takes the winner's back reference away
  (`StolenLock.LoserReleasesTheLock`, a run from an untouched cluster). A completed finalize keeps the
  lock invariant exactly when `MayRelease` holds (`LockProtocol.FinalizeIsSafeIff`).
* A policy that leaves a gateway takes the limits of everybody listed there with it. They are right
  afterwards exactly when each of the others asked for nothing: a gateway-level policy without limits,
  or a route-level one whose route has no hostnames or which has no limits itself beside a
  gateway-level policy without any (`Restoration.DepartureKeepsLimitsIff`). The next completed
  reconcile of any of the others brings them back. `Counterexamples.DepartureLosesLimits` shows two
  policies, of which one leaves and the other's limit is gone.
* A finalize withdraws only from the gateways its policy still targets. It leaves the policy's key
  listed unless every gateway that listed it was still targeted and listed it once
  (`Leftovers.FinalizeUnlistsIff`). A key left behind stops every policy that targets that gateway,
  and keeps those being deleted from going (`Leftovers.LeftoverBlocks`).
  `Counterexamples.DeletedPolicyHaunts` shows a policy whose route is gone: its deletion completes, it
  stays listed, and the gateway's other policy fails from then on.
* Entries of Limitador whose namespace does not parse, somebody else's for example, are dropped by
  every run that has limits to write (`ForeignEntries.ForeignKeptIff`,
  `Counterexamples.StrangersEntryIsDropped`).
* A key with `#` or `/` in its parts, or a domain with `#`, does not survive printing and parsing
  (`Namespaces.ParsePrintRoundTrip` gives the exact condition). The API server admits no such names,
  so no cluster shows this; the theorems that depend on it say `NamesOk`.
* A route that mixes supported matches with matches that name neither a method nor an Exact or
  Prefix path loses the latter (`RouteRules.CoverageCondition` gives the exact condition, in terms of
  finitely many paths; `Counterexamples.HeaderMatchIsLost` a rule that matches GET or a header).
* An Exact path value that ends in `*` compiles to a rule path that is read as a prefix. A compiled
  rule accepts exactly what the route's hosts and its match's method and supported path say if and
  only if there is no such value (`RouteRules.RuleIsExactIff`); `Counterexamples.StarredExactIsWide` has `/admin/*`.
* A reference annotation that does not parse makes a targeted gateway get filter and plugin although
  nobody can be listed there (`Artefacts.ReconcileKeepsArtefacts` gives the exact condition,
  `Counterexamples.MalformedBreaksArtefacts` a cluster).
* A policy that is alone on a gateway but listed twice keeps one listing when it is finalized, while
  filter and plugin go (`Artefacts.FinalizeKeepsArtefacts`, `Counterexamples.ListedTwiceBreaksArtefacts`).

## Model

| member | source | states |
|---|---|---|
| LimitOrder.Less | pkg/rlptools/limit_index.go:30-73 | the comparison of two list positions is the six-level lexicographic order `Before` on the limits they hold |
| LimitOrder.BeforeIsTotalOrder | pkg/rlptools/limit_index.go:30-73 | the order is reflexive (equal limits compare as before each other), total, antisymmetric and transitive |
| LimitOrder.Sort | pkg/rlptools/limit_index.go:79-94 | sorting in place under a reflexive comparator yields a sorted permutation |
| LimitOrder.SortedIsUnique | pkg/rlptools/limit_index.go:79-94 | two sorted permutations of the same limits are the same list |
| LimitOrder.SameLimitList | pkg/rlptools/limit_index.go:79-94 | true exactly when the lists are equal as multisets; the arguments are not modified |
| Namespaces.ParsedIsCanonical | pkg/common/common.go:88-116 | whatever parses has key parts without `/` and `#` and a domain without `#` |
| Namespaces.ParsesIffNamed | pkg/common/common.go:88-116 | a string parses to a pair if and only if it reads `namespace/name#domain`, where further `/` parts behind the name are ignored and no other separator occurs |
| Namespaces.ParsePrintRoundTrip | pkg/common/common.go:88-116 | printing then parsing gives the pair back if and only if the key parts contain neither `/` nor `#` and the domain contains no `#` |
| Namespaces.PrintIsInjective | pkg/common/common.go:105-107 | on such names two different pairs never print alike |
| Namespaces.PrintIsShortest | pkg/common/common.go:105-107 | the printed form is the shortest string that parses to the pair, and the only one of its length |
| LimitIndexes.LimitIndex.constructor | pkg/rlptools/limit_index.go:234-249 | a new index holds each entry as often as elements of the flat list say it, that is, name its gateway and domain and have its four fields; a missing Limitador gives the empty index |
| LimitIndexes.LimitIndex.DeleteGateway | pkg/rlptools/limit_index.go:146-148 | the gateway's entry is gone, all others stay |
| LimitIndexes.LimitIndex.AddLimit | pkg/rlptools/limit_index.go:159-165 | the limit is appended under its gateway and domain, both created when missing |
| LimitIndexes.LimitIndex.AddLimitFromRateLimit | pkg/rlptools/limit_index.go:168-182 | every entry counts one more if the element says it, and stays otherwise; so an element whose namespace does not parse is skipped |
| LimitIndexes.LimitIndex.AddGatewayLimits | pkg/rlptools/limit_index.go:150-156 | every entry's count grows by what the given map holds, whatever the order its domains are visited in, and no empty gateway or domain appears |
| LimitIndexes.LimitIndex.ToLimits | pkg/rlptools/limit_index.go:126-144 | the flat list prints every held entry exactly as often as the index holds it, each with the fields of its limit |
| LimitIndexes.DomainsEqual | pkg/rlptools/limit_index.go:96-116 | true exactly when both maps have the same domains and, per domain, the same multiset of limits |
| LimitIndexes.LimitIndex.Equals | pkg/rlptools/limit_index.go:184-206 | true exactly when both indexes have the same gateways and domains with equal multisets; false against nil |
| LimitIndexes.AddLimitCounts | pkg/rlptools/limit_index.go:159-165 | one more occurrence of the added entry, nothing else changes, gateway entries and domain lists stay non-empty |
| LimitIndexes.DeleteGatewayCounts | pkg/rlptools/limit_index.go:146-148 | no occurrence of the gateway is left, all other counts stay, nothing empty appears |
| LimitIndexes.IndexHoldsParsed | pkg/rlptools/limit_index.go:234-249 | the index built from a flat list holds exactly the multiset of its parseable entries, has no empty entries, and holds canonical names only |
| LimitIndexes.SameIndexIsSameMult | pkg/rlptools/limit_index.go:184-206 | for indexes without empty entries, structural equality is equality of all counts |
| LimitIndexes.EqualsIsFlatEquality | pkg/rlptools/limit_index.go:126-206 | for such indexes with canonical keys, `Equals` holds if and only if the printed lists are equal as multisets, for any two printing orders |
| LimitIndexes.IndexPrintRoundTrip | pkg/rlptools/limit_index.go:126-182 | parsing a list and printing the index gives, as a multiset, exactly the entries that parse, canonicalised; and it parses back to the same entries |
| LimitIndexes.PrintedSaysHeld | pkg/rlptools/limit_index.go:126-144 | the elements of a printed list say each entry exactly as often as the canonical index holds it |
| LimitIndexes.ParsedIgnoresOrder | pkg/rlptools/limit_index.go:168-182 | reordering the flat list changes nothing that is read from it |
| Hostnames.SubsetOfIsContainment | pkg/common/hostname.go:12-39 | the syntactic wildcard test holds if and only if every concrete host the first name matches is matched by the second |
| Hostnames.SubsetOfIsPreorder | pkg/common/hostname.go:12-35 | the test is reflexive and transitive |
| Hostnames.ValidSubdomains | pkg/common/common.go:133-148 | true exactly when every subdomain is covered by a single domain; otherwise the first uncovered one is returned |
| Hostnames.AcceptedHostsAreCovered | pkg/common/common.go:133-148 | hosts matched by accepted subdomains are matched by some domain |
| Hostnames.WideningKeepsValidity | pkg/common/common.go:133-148 | replacing the domains by wider ones never rejects an accepted list |
| RouteRules.RulesFromHTTPRoute | pkg/common/gatewayapi_utils.go:48-79 | the rules compiled by the nested loop accept together every request that a supported match of the route reads, or, if it has none, every request on the route's hosts, and nothing else unless an Exact path ends in `*` |
| RouteRules.KeptRulesMembers | pkg/common/gatewayapi_utils.go:48-79 | the compiled rules are exactly those of the matches that name a method or an Exact or Prefix path |
| RouteRules.KeptRulesInOrder | pkg/common/gatewayapi_utils.go:55-71 | one rule for each supported match, in the order of the matches |
| RouteRules.RuleReadsItsMatch | pkg/common/gatewayapi_utils.go:82-106 | a compiled rule accepts a request on a route hostname, with the method if one is named, on the Exact path itself or behind the Prefix (`/` where no value is given), and, unless an Exact value ends in `*`, nothing else |
| RouteRules.RuleIsExactIff | pkg/common/gatewayapi_utils.go:82-106 | it accepts exactly these requests if and only if its match is not an Exact path that ends in `*` |
| Counterexamples.StarredExactIsWide | pkg/common/gatewayapi_utils.go:93-105 | the match Exact `/admin/*` compiles to a rule that accepts `/admin/toys`, which the match does not |
| RouteRules.RuleCoversItsMatch | pkg/common/gatewayapi_utils.go:82-106 | a compiled rule accepts every request its match accepts on a route hostname, including default path type and value |
| RouteRules.CoverageCondition | pkg/common/gatewayapi_utils.go:48-106 | every request accepted by the route is accepted by a rule, under every regular-expression engine, if and only if all matches are supported, or none is, or the rules without method accept every path up to one character longer than the longest rule path |
| RouteRules.ShortPathsSuffice | pkg/common/gatewayapi_utils.go:82-106 | accepting those finitely many paths is accepting every path |
| RouteRules.RootPrefixCatchesAll | pkg/common/gatewayapi_utils.go:82-106 | one supported match on the default path `/` without method is enough for that |
| Counterexamples.HeaderMatchIsLost | pkg/common/gatewayapi_utils.go:48-79 | a concrete rule that matches GET requests or requests with a header compiles into one rule for GET, so requests with the header alone are not covered |
| TargetRefs.TargetedGatewayKeys | pkg/reconcilers/targetref_reconciler.go:117-147 | for a usable route one key per parent, in order, with the parent's name and its namespace or, where it has none, the route's; for a gateway the one key its reference denotes; none for another kind; a missing or rejected route is an error |
| Effects.TargetsIff | pkg/reconcilers/targetref_reconciler.go:117-147 | a policy targets a gateway if and only if its reference, filled in with its own namespace, names the gateway, or names a route that no parent rejects and of which the gateway is a parent |
| TargetRefs.TargetHostnames | pkg/reconcilers/targetref_reconciler.go:149-174 | exactly the hostnames of the route, or those the listeners of the ready gateway carry, in order; `*` if and only if there is none; else the error of the missing, rejected or unready object |
| TargetRefs.ListenerCount | pkg/reconcilers/targetref_reconciler.go:160-166 | a hostname occurs once for each listener that carries it |
| TargetRefs.UsableRouteIff | pkg/reconcilers/targetref_reconciler.go:63-97 | a route is fetched if and only if it exists and for none of its parents the first status entry rejects it; otherwise NotFound or not accepted |
| TargetRefs.TargetMeaning | pkg/reconcilers/targetref_reconciler.go:98-115 | the target of a reference is the existing, accepted route or ready gateway that it denotes; each other case has its error |
| TargetRefs.ValidIff | apis/apim/v1alpha1/ratelimitpolicy_types.go:241-255 | a policy is valid if and only if its reference has the right group and a known kind and can denote objects of the policy's namespace only |
| TargetRefs.PolicyHostsMembers | controllers/apim/ratelimitpolicy_controller.go:268-277 | the hosts that are checked are exactly those some rule of some rate limit names |
| Merging.FlattenLimits | apis/apim/v1alpha1/ratelimitpolicy_types.go:270-278 | the limits of the first rate limit, complete and in order, then those of the second, and so on; each limit occurs as often as in all rate limits together |
| Merging.LoadPolicies | controllers/apim/ratelimitpolicy_limits.go:108-128 | sorts the references into one gateway-level policy and the route-level ones; fails on a missing policy or a second gateway-level one |
| MergeLaws.FirstUnloadable | controllers/apim/ratelimitpolicy_limits.go:108-128 | the first reference that cannot be loaded decides the error: not found, or a second gateway-level policy |
| Merging.FirstUnusableRoute | controllers/apim/ratelimitpolicy_limits.go:143-148 | after that, the first route that cannot be fetched does |
| Merging.AppendToDomains | controllers/apim/ratelimitpolicy_limits.go:130-155 | every domain's list grows by the items once per occurrence of the domain in the given list, others stay |
| Merging.GatewayLimits | controllers/apim/ratelimitpolicy_limits.go:103-158 | gathers, domain by domain, the gateway-level part and one part per route-level policy, or fails with the first error |
| MergeLaws.MergeLaw | controllers/apim/ratelimitpolicy_limits.go:103-170 | how often a limit occurs under a domain is a sum over the references, in the policies' own fields: occurrences of the domain among the gateway's hostnames (or `*`) times the sum over the gateway-level policy's rate limits, plus, per route-level policy, occurrences among its route's hostnames times the sum over its own and the gateway-level policy's rate limits |
| MergeLaws.LoadSucceeds | controllers/apim/ratelimitpolicy_limits.go:108-128 | loading succeeds if and only if every referenced policy exists and at most one is gateway-level |
| MergeLaws.MergesIff | controllers/apim/ratelimitpolicy_limits.go:103-158 | a merge succeeds if and only if moreover the route of every listed route-level policy exists and no parent rejects it |
| MergeLaws.MergeIgnoresOrder | controllers/apim/ratelimitpolicy_limits.go:103-170 | permuting the references changes neither success nor any count |
| WasmPlugins.GatewayActionsFromRateLimitPolicy | pkg/rlptools/wasm_utils.go:30-50 | one action per rate limit, in order: its configurations, and its own rules if it has any, else the rules compiled from the route, if there is one |
| WasmPlugins.GatewayActionsByDomain | controllers/apim/ratelimitpolicy_wasm_plugins.go:124-176 | the plugin's own merge loop, with the same failures as the merge of limits; what it files is `ActionLaws.ActionLaw` |
| WasmPlugins.WasmPluginConfig | controllers/apim/ratelimitpolicy_wasm_plugins.go:124-194 | the plugin as a list, its domains visited in some order of the map: one policy per domain, none twice, which acts on that domain, asks the namespace printed for it, and has the actions gathered for it |
| WasmPlugins.VisitedPolicies | controllers/apim/ratelimitpolicy_wasm_plugins.go:181-191 | in every such order the list holds the same policies, each once |
| ActionLaws.ActionLaw | controllers/apim/ratelimitpolicy_wasm_plugins.go:124-207 | how often an action occurs under a domain is a sum over the references: occurrences of the domain among the route's hostnames times how many of the policy's rate limits, filled in from the route, and of the gateway-level policy's ask for it, plus occurrences among the gateway's hostnames (or `*`) times the gateway-level policy's |
| ActionLaws.MergeDomainsIff | controllers/apim/ratelimitpolicy_wasm_plugins.go:124-176 | a domain is merged if and only if it is a hostname of a listed route-level policy's route, or a gateway-level policy is listed and it is one of the gateway's (or `*`) |
| ActionLaws.ActionsIgnoreOrder | controllers/apim/ratelimitpolicy_wasm_plugins.go:124-207 | permuting the references changes no such count |
| SharedDomains.DomainsAgree | controllers/apim/ratelimitpolicy_wasm_plugins.go:124-194 | limits and plugin actions are filed under the same domains |
| SharedDomains.NamespaceHasOnePluginPolicy | controllers/apim/ratelimitpolicy_wasm_plugins.go:178-191 | every namespace with a limit is the rate limit domain of one plugin policy and of no other |
| SharedDomains.GatewayLimitsApplyEverywhere | controllers/apim/ratelimitpolicy_limits.go:103-170 | under every domain of the merge each limit occurs at least as often as in the gateway-level policy's rate limits |
| SharedDomains.GatewayActionsApplyEverywhere | controllers/apim/ratelimitpolicy_wasm_plugins.go:197-207 | and each action at least as often as the gateway-level policy asks for it, so those limits are consulted everywhere |
| ServedLimits.HeldLimitsAreServed | controllers/apim/ratelimitpolicy_wasm_plugins.go:20-72 | after a completed reconcile, every limit Limitador holds for a targeted gateway belongs to exactly one policy of the plugin stored for that gateway |
| ServedLimits.StoredLimitsSay | controllers/apim/ratelimitpolicy_limits.go:17-101 | after a completed reconcile, the elements of Limitador's flat list that name a targeted gateway are the merge over the policies now listed on it, each as often |
| ServedLimits.StoredPluginAsks | controllers/apim/ratelimitpolicy_wasm_plugins.go:20-194 | after a completed reconcile, the plugin stored for a targeted gateway has one policy for each merged domain and no other, each with every action exactly as often as the policies now listed on the gateway ask for it |
| ServedLimits.SettledPluginsAsk | controllers/apim/ratelimitpolicy_wasm_plugins.go:20-194 | the same of every gateway once the artefacts have settled |
| GatewayRefs.GatewayWrapper.ContainsRLP | pkg/rlptools/gateway_utils.go:92-115 | true exactly when the annotation parses and lists the key |
| GatewayRefs.GatewayWrapper.AddRLP | pkg/rlptools/gateway_utils.go:119-160 | the annotation after an addition, in all three of its forms; true exactly when it changed |
| GatewayRefs.GatewayWrapper.DeleteRLP | pkg/rlptools/gateway_utils.go:164-199 | the annotation after a removal; true exactly when it changed |
| GatewayRefs.AddRefMeaning | pkg/rlptools/gateway_utils.go:119-160 | the key is listed afterwards, everybody else keeps their place, no new repetition |
| GatewayRefs.RemoveFromDistinct | pkg/rlptools/gateway_utils.go:164-199 | on a list without repetitions exactly that key goes, the others keep their order |
| GatewayRefs.NewGateways | pkg/rlptools/gateway_utils.go:12-24 | the targeted gateways that do not list the policy, in list order |
| GatewayRefs.SameGateways | pkg/rlptools/gateway_utils.go:26-39 | the targeted gateways that list it |
| GatewayRefs.LeftGateways | pkg/rlptools/gateway_utils.go:41-53 | the listing gateways that are not targeted |
| GatewayRefs.DiffIsPartition | pkg/rlptools/gateway_utils.go:12-53 | the three selections are disjoint by key and together are the gateways that are targeted or list the policy |
| Common.ContainsObjectKey | pkg/common/k8s_utils.go:136-143 | true exactly when the key occurs |
| Common.FindObjectKey | pkg/common/k8s_utils.go:147-154 | the first position, or the length |
| Reconcilers.Reconciler.ReplaceGateway | controllers/apim/ratelimitpolicy_limits.go:34-67 | deletes and refills one gateway's entry: its counts become the merge over the given references, all other counts stay; an error is the merge's |
| Reconcilers.Reconciler.UpdatedIndex | controllers/apim/ratelimitpolicy_limits.go:17-67 | left gateways hold nothing, same and new ones the merge over their projected references, every other gateway what it held |
| Reconcilers.Reconciler.ReconcileLimits | controllers/apim/ratelimitpolicy_limits.go:17-101 | writes the printed index once if it differs from the stored one, nothing otherwise or on any error |
| Reconcilers.Reconciler.ReconcileFilters | controllers/apim/ratelimitpolicy_cluster_envoy_filter.go:21-64 | performs the filter plan: left gateways, then new ones; same gateways are skipped |
| Reconcilers.Reconciler.ReconcileFilter | controllers/apim/ratelimitpolicy_cluster_envoy_filter.go:66-112 | created or updated while references remain, deleted if present otherwise |
| Reconcilers.Reconciler.ReconcilePlugins | controllers/apim/ratelimitpolicy_wasm_plugins.go:20-72 | performs the plugin plan: left, same, then new gateways, each plugin compared in order with the stored one and put when they differ |
| Reconcilers.Reconciler.ReconcileReferences | controllers/apim/ratelimitpolicy_controller.go:243-266 | removals on left gateways, then additions on new ones, each written only if the annotation changed |
| Reconcilers.Reconciler.ComputeGatewayDiffs | controllers/apim/ratelimitpolicy_controller.go:209-236 | the gateways read once and split into new, same and left |
| Reconcilers.Reconciler.ReconcileGatewayDiffs | controllers/apim/ratelimitpolicy_controller.go:162-197 | limits, filter, plugin, references, in this order, stopping at the first failure |
| Reconcilers.Reconciler.AcquireBackReference | pkg/reconcilers/targetref_reconciler.go:177-214 | takes a free target, keeps its own, fails on somebody else's |
| Reconcilers.Reconciler.ReleaseBackReference | pkg/reconcilers/targetref_reconciler.go:216-249 | clears the annotation of the target whoever it names; a missing target is no error |
| Reconcilers.Reconciler.ValidateRuleHosts | controllers/apim/ratelimitpolicy_controller.go:268-286 | the first rule host the target's hostnames do not cover, or the target's error |
| Reconcilers.Reconciler.ReconcileSpec | controllers/apim/ratelimitpolicy_controller.go:137-160 | validates, checks hosts, takes the back reference, then reconciles the gateways |
| Reconcilers.Reconciler.Finalize | controllers/apim/ratelimitpolicy_finalizers.go:21-55 | removes references, plugin, filter and limits, then releases the back reference; a missing route or Limitador is tolerated |
| Reconcilers.Reconciler.Reconcile | controllers/apim/ratelimitpolicy_controller.go:63-135 | performs the plan of the run, all of it or a prefix ended by a refused write, for some listing order and some order of the visited maps |
| Effects.ReconcileEffect | controllers/apim/ratelimitpolicy_controller.go:63-197 | state after every completed reconcile: finalizer, back reference, each gateway's references, Limitador's parseable entries (`ForeignEntries.ForeignKeptIff` has the others), filter with its endpoint, and plugin; everything else as before, including Limitador's status and the artefacts of untouched gateways and of those outside the topology |
| Effects.LimitsApplied | controllers/apim/ratelimitpolicy_limits.go:27-98 | after the limits stage Limitador holds exactly the updated index, written or not |
| Effects.RefsApplied | controllers/apim/ratelimitpolicy_controller.go:243-266 | after the reference stage each annotation is edited exactly where the diff says |
| Effects.FilterAt | controllers/apim/ratelimitpolicy_cluster_envoy_filter.go:66-112 | after the filter stage a gateway it worked on has a filter exactly when references remain, with Limitador's endpoint; every other filter keeps its value |
| Effects.WasmAt | controllers/apim/ratelimitpolicy_wasm_plugins.go:74-121 | after the plugin stage a gateway it worked on has a plugin exactly when references remain, and it lists the policies they ask for, each once |
| FinalizeEffects.FinalizeHasEffect | controllers/apim/ratelimitpolicy_finalizers.go:21-55 | state after every completed finalize: policy, finalizer and back reference gone; references, filter, plugin and parseable Limitador entries withdrawn from the targeted gateways (`ForeignEntries.ForeignKeptIff` has the other entries); everything else as before, including Limitador's status and all other filters and plugins |
| LimitWrites.LimitsAllOrNothing | controllers/apim/ratelimitpolicy_limits.go:27-98 | after any prefix of any run Limitador is untouched or holds the complete update; untouched if some gateway's limits could not be computed |
| ForeignEntries.ForeignKeptIff | controllers/apim/ratelimitpolicy_limits.go:85-98 | a completed reconcile or finalize keeps the Limitador entries whose namespace does not parse if and only if there are none or the limits it asks for are the ones already held; otherwise it drops them all |
| Counterexamples.StrangersEntryIsDropped | pkg/rlptools/limit_index.go:168-182 | a concrete Limitador with somebody else's entry: a reconcile completes and the entry is gone |
| Convergence.ReferencesFollowTargets | controllers/apim/ratelimitpolicy_controller.go:243-266 | after a completed reconcile the policy is listed exactly where it targets, others keep their order, nobody is listed twice |
| Convergence.ProjectedIsStored | controllers/apim/ratelimitpolicy_wasm_plugins.go:23-70 | the reference list filter and plugin are built from is the list stored afterwards |
| Convergence.EffectMerges | controllers/apim/ratelimitpolicy_limits.go:27-67 | targeted gateways hold the merge over their new references, left ones nothing, others what they held |
| SecondRun.SecondRunOnlyReorders | pkg/rlptools/wasm_utils.go:118-146 | a reconcile repeated right after it completed completes again, in every order; it writes no limits, references, filters, finalizer or back reference, and each plugin it writes is a permutation of the stored one |
| SecondRun.SecondRunIsQuietIff | pkg/rlptools/wasm_utils.go:118-146 | it writes nothing at all, in every order, if and only if the policies of each targeted gateway are merged under at most one domain |
| Counterexamples.SecondRunWrites | controllers/apim/ratelimitpolicy_wasm_plugins.go:181-191 | a concrete gateway with two hostnames on which the repeated reconcile writes |
| Convergence.ReconcileClearsDisagreements | controllers/apim/ratelimitpolicy_controller.go:162-266 | the set of (policy, gateway) pairs on which references and targets disagree loses exactly the policy's own; it shrinks if and only if the policy was not settled |
| Completion.ReconcileCompletesIff | controllers/apim/ratelimitpolicy_controller.go:86-197 | a reconcile of a live policy ends without error, in any order, if and only if the policy is valid with served hosts, its target can be fetched and is free or its own, the policies that will be listed on every touched gateway can be merged, and Limitador exists (and is ready where a gateway changes hands) |
| Completion.FinalizeCompletesIff | controllers/apim/ratelimitpolicy_finalizers.go:21-90 | a finalize ends without error, in any order, if and only if its route and target can be fetched or are gone, the policies that remain on every gateway it withdraws from can be merged, and Limitador is ready where any remain |
| Leftovers.FinalizeUnlistsIff | controllers/apim/ratelimitpolicy_finalizers.go:58-85 | a completed finalize leaves the policy listed nowhere if and only if every gateway that listed it was still targeted and listed it once |
| Leftovers.MissingPolicyFails | controllers/apim/ratelimitpolicy_limits.go:108-128 | merging a list that names a missing policy fails, with NotFound if the list names at most one gateway-level policy |
| Leftovers.LeftoverBlocks | controllers/apim/ratelimitpolicy_finalizers.go:58-85 | after a finalize that left its key on a gateway, every reconcile of a policy that targets the gateway fails without writing anything derived, and every finalize that withdraws from it fails and keeps its finalizer |
| Counterexamples.DeletedPolicyHaunts | controllers/apim/ratelimitpolicy_finalizers.go:58-85 | a concrete cluster in which a policy whose route is gone is finalized to the end, stays listed, and the other policy of the gateway fails in every order from then on |
| OnePolicy.OnePolicyConverges | controllers/apim/ratelimitpolicy_controller.go:162-266 | on a concrete cluster, one policy on one gateway, both rounds complete and Limitador ends up holding exactly the policy's limit |
| Convergence.TwoRoundsConverge | controllers/apim/ratelimitpolicy_controller.go:162-266 | two rounds of completed reconciles, each in any order and with repetitions, end with every gateway listing exactly the policies that target it and holding their merged limits |
| ConvergedArtefacts.TwoRoundsSettleArtefacts | controllers/apim/ratelimitpolicy_wasm_plugins.go:20-121 | after the two rounds a gateway has a filter exactly if policies are listed on it, and its plugin is absent without references and otherwise lists the policies they ask for, each once |
| InterruptedRuns.RunsAreAccountable | controllers/apim/ratelimitpolicy_controller.go:86-197 | along every run of users' actions, reconciles and finalizes, each cut short after any write: limits, filters and plugins sit only on gateways that a policy with finalizer targets, and whoever is listed has a filter |
| InterruptedRuns.InterruptedRunsConverge | controllers/apim/ratelimitpolicy_controller.go:86-197 | from every cluster such runs lead to, once nothing is being deleted, two rounds settle references, limits, filters and plugins |
| Progress.AdmittedCompletes | controllers/apim/ratelimitpolicy_controller.go:86-197 | under the lock invariant and with a ready Limitador, a valid policy with served hosts whose target is free or its own is reconciled without error, in every order |
| Progress.RefusedWrites | controllers/apim/ratelimitpolicy_controller.go:115-160 | every other live policy fails, and writes its finalizer and nothing else |
| Progress.AttemptsConverge | controllers/apim/ratelimitpolicy_controller.go:86-197 | two rounds of attempts that may fail on their own, each in any order and with repetitions: every target an eligible policy claims is held by an eligible one, each gateway lists exactly the holders that target it, and holds their merged limits |
| Progress.UncontestedAttemptsComplete | controllers/apim/ratelimitpolicy_controller.go:86-197 | when every policy is eligible and no two share a target, every attempt completes, and these conditions are kept |
| Progress.UncontestedConverges | controllers/apim/ratelimitpolicy_controller.go:86-197 | then two rounds end with every gateway listing exactly the policies that target it, nothing being assumed to complete |
| Recovery.AttemptsSettleArtefacts | controllers/apim/ratelimitpolicy_wasm_plugins.go:20-121 | two rounds of attempts also make filters and plugins exist exactly where policies are listed, each plugin with the policies the references ask for |
| Recovery.InterruptedRunsRecover | controllers/apim/ratelimitpolicy_controller.go:86-197 | from every cluster that interrupted runs leave behind, once nothing is being deleted, holders are eligible and no gateway is left to policies that are not, two rounds of attempts settle references, limits, filters and plugins |
| Convergence.ConvergenceIsConfluent | controllers/apim/ratelimitpolicy_limits.go:17-101 | two such histories agree on references and on everything Limitador holds, as multisets |
| Convergence.ConvergedIsQuiet | controllers/apim/ratelimitpolicy_limits.go:69-98 | in a converged cluster no reconcile writes limits or references |
| Restoration.MapToRateLimitPolicy | controllers/apim/gateway_eventmapper.go:19-38 | a gateway event requeues exactly the policies listed on the gateway, in order |
| Restoration.DepartureClears | controllers/apim/ratelimitpolicy_limits.go:29-32 | a policy that leaves or is finalized leaves the others listed in their order and the gateway without limits |
| Restoration.DepartureKeepsLimitsIff | controllers/apim/ratelimitpolicy_limits.go:29-32 | right afterwards the limits are the merge over the policies that remain if and only if, in the cluster before, each of these asked for nothing: no limits, or a route without hostnames |
| EmptyMerges.EmptyMergeIff | controllers/apim/ratelimitpolicy_limits.go:130-170 | the merge over a reference list is empty if and only if each listed policy is of that kind |
| Counterexamples.DepartureLosesLimits | controllers/apim/ratelimitpolicy_finalizers.go:34-48 | a concrete gateway with two policies, its limits in place: one leaves, and the other is still listed but its limit is gone |
| Restoration.ListedPolicyRestores | controllers/apim/ratelimitpolicy_limits.go:34-49 | a completed reconcile of any listed policy that targets the gateway makes its limits the merge over all references, whatever they were |
| Restoration.DepartureIsRepaired | controllers/apim/ratelimitpolicy_finalizers.go:34-48 | departure, requeue and one repair give the merge over exactly the remaining references |
| StageOrders.ReferencesFirstOrLast | controllers/apim/ratelimitpolicy_finalizers.go:34-48 | for a gateway that is left, removing references last (reconcile) or first (finalize) succeeds in the same cases and ends in the same cluster |
| Artefacts.ReconcileKeepsArtefacts | controllers/apim/ratelimitpolicy_cluster_envoy_filter.go:21-112 | a completed reconcile keeps "filter and plugin exist exactly when policies are listed" if and only if no targeted gateway's annotation is malformed |
| Artefacts.FinalizeKeepsArtefacts | controllers/apim/ratelimitpolicy_finalizers.go:21-55 | a completed finalize keeps it if and only if no gateway it withdraws from lists the policy twice and nobody else |
| Counterexamples.MalformedBreaksArtefacts | pkg/rlptools/gateway_utils.go:119-160 | a concrete cluster with an annotation that does not parse: the reconcile completes and makes filter and plugin for a gateway that lists nobody |
| Counterexamples.ListedTwiceBreaksArtefacts | pkg/rlptools/gateway_utils.go:164-199 | a concrete cluster with a policy listed twice: the finalize completes, filter and plugin are gone and one listing stays |
| Artefacts.ArtefactsFollowReferences | controllers/apim/ratelimitpolicy_wasm_plugins.go:98-111 | it holds after any sequence of completed reconciles, finalizes and users' actions |
| RuleHostCheck.ReconciledRuleHostsAreServed | controllers/apim/ratelimitpolicy_controller.go:268-286 | every concrete host that a host named by a reconciled policy's rules matches is matched by a hostname of its route, or of a listener of its gateway, unless these have none |
| RuleHostCheck.RejectedRuleHostEscapes | controllers/apim/ratelimitpolicy_controller.go:137-150 | a rejected policy writes nothing but its finalizer; the reported host is named by one of its rules and reaches outside each hostname of the route or the listeners, of which there are some |
| RuleHostCheck.HostsPassIff | controllers/apim/ratelimitpolicy_controller.go:268-286 | the check passes if and only if the target is usable and every host the rules name is contained in one hostname of the route or the listeners, or these have none |
| LockProtocol.ReconcileSafe | controllers/apim/ratelimitpolicy_controller.go:86-160 | every prefix of a reconcile keeps: listed policies target the gateway, are recorded on their target and have their finalizer |
| LockProtocol.FinalizeSafe | controllers/apim/ratelimitpolicy_finalizers.go:21-55 | so does every prefix of a finalize whose release meets an absent or own back reference, or one of an unlisted policy |
| LockProtocol.ReleaseIsSafeIffHolderUnlisted | pkg/reconcilers/targetref_reconciler.go:216-249 | releasing a back reference keeps the invariant if and only if its holder is listed on no gateway |
| LockProtocol.FinalizeIsSafeIff | pkg/reconcilers/targetref_reconciler.go:216-249 | a completed finalize keeps the invariant if and only if its release was of that kind |
| LockProtocol.LockSafety | controllers/apim/ratelimitpolicy_controller.go:86-160 | the invariant holds after every run of users' actions, reconciles and finalizes, each cut short after any write |
| StolenLock.LoserReleasesTheLock | pkg/reconcilers/targetref_reconciler.go:216-249 | a run from an untouched cluster (two policies created and reconciled, the second one deleted) up to which the invariant holds, and whose completed finalize breaks it |
| GatewayPolicyUniqueness.OneGatewayPolicy | controllers/apim/ratelimitpolicy_limits.go:119-127 | at most one policy rightly listed on a gateway is gateway-level |
| GatewayPolicyUniqueness.ReachableGatewaysListOne | controllers/apim/ratelimitpolicy_limits.go:119-127 | in no reachable cluster does a gateway list two gateway-level policies |
| GatewayPolicyUniqueness.MultipleGatewayErrorUnreachable | controllers/apim/ratelimitpolicy_limits.go:119-127 | in no reachable cluster does a reconcile or finalize end with the "multiple gateway RLP" error |

## Left out

- The Kubernetes client, caches, watches, events and logging: the API server is a value updated by writes that may be refused at any point; one run at a time. A resourceVersion conflict is a refused write. Reads never fail for other reasons than a missing object, and a write is never refused because its object has just vanished (the code shrugs that off for finalizers and, in a finalize, for Limitador).
- JSON: an annotation is missing, malformed, or a list of keys. The theorems that need parseable, duplicate-free annotations say so (`RefsOk`).
- Back references hold the policy's key itself, not the string `ns/name`.
- Policies whose `targetRef` is edited, and routes or gateways that change while a run sequence is under way: the theorems over runs fix both. What one run does when gateways were left is covered.
- Names of filters and plugins are derived from the gateway; the model keys both by the gateway. The Envoy patch, the image URL and other fixed content are left out; a filter keeps Limitador's endpoint only.
- `resourceVersion`s: an update that changes nothing, such as the one `AlwaysUpdateEnvoyFilter` (`pkg/istio/envoy_filters.go:71`) always asks for, is a write of the same value.
- nil and empty slices are identified.
- Go's `sort.Sort` is replaced by an insertion sort on the same comparator. Integers are unbounded.
- `HTTPRouteRule` and `Rule` are one type. Rule paths ending in `*`, and path prefixes of routes, are read as string prefixes, not as prefixes of path segments.
- A route without hostnames gives its policy's limits no domain at all, because the merges loop over the route's own hostnames (`controllers/apim/ratelimitpolicy_limits.go:143-155`) and not over `RouteHostnames`; the model keeps that.
- Status, the AuthPolicy controller, Istio AuthorizationPolicy and Authorino resources.
- Other finalizers on a policy: once the controller's own is removed from a policy being deleted, the policy is gone.
- Convergence.TwoRoundsConverge: needs names that print and parse back (`NamesOk`), since otherwise a gateway's own limits are not recognised when read again; and no limits on gateways that nobody lists or targets, which every run keeps (`InterruptedRuns.RunsAreAccountable`).
- Progress.AttemptsConverge: needs whoever holds a target to be eligible. A holder that is edited into an invalid policy keeps its target and its listing, and its limits are merged only when somebody else listed there is reconciled.
- InterruptedRuns.InterruptedRunsConverge: the runs are those of `LockProtocol.LockSafety`, with the same condition on releases, and nobody retargets a policy on the way.
- StageOrders.ReferencesFirstOrLast: needs a Limitador resource; without one a reconcile fails at its first stage, while a finalize tolerates that in its limits stage.
- LockProtocol.LockSafety: needs every release to meet an absent or own back reference, or one of an unlisted policy; `StolenLock` shows why.
