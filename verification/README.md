# Orcker daemon: a verified model

Orcker's daemon is a state machine over one configuration. A request edits a clone of the configuration,
the clone is validated, a domain router is rebuilt from it, and memory, disk and router are replaced
together. This project models that machine, the pieces it is made of, and the small stream and text
algorithms beside it, and proves what they promise. `dafny verify dfyconfig.toml` checks all of it.

How the parts fit:

- **Claims and routing.** `Text`, `Domains`, `Config` and `Router` are the data and `Validation` the validator;
  `Claims` resolves who owns each domain in one pass and is proved against a declarative winner; `SiteDomains`
  and `RouterBuild` plan the claimants and build the router; `Insertion` and `Ownership` show that insertion
  never fails and what the router then routes, `Upstreams` where its proxies go; `Collisions` is the conflict
  report; `ScanOrder` says when the order of a directory scan matters.
- **Requests.** `Mutate` gives each of the 21 requests a meaning on values; `MutateImpl` holds the in-place
  handlers, their searches and retains as loops, proved to do exactly that, errors and leftovers included.
  `Reasons` says when each is refused. `DomainRequests`, `DomainRelease`, `DomainReset`, `ProxyRequests`,
  `RuleRequests` and `SiteRecords` follow accepted requests into the rebuilt router. `Frames`, `Paths`,
  `Refusals`, `DeltaInvariant`, `LinkUnlink`, `ProxyKeys`, `Groups` and `Undo` prove what the requests keep,
  store and undo.
- **Concurrency.** `Commit` is the commit protocol as steps around the config mutex, refined to a machine of
  whole handlers; `Runs` carries the invariants to every reachable state, and `LostApex` is a run that leaves
  their conditions. `Locks` is about waiting and deadlock; `LanSetup` about one-time setup codes.
- **Streams and text.** `Jobs` and `JobStream` are the evicting job log and its polling client, `Ansi` the
  escape stripper, `Framing` the bounded line reader, `Version` the manifest version rewriter.

Where the source updates things in place (`SiteRouter`, `ConfigFile`, `JobRegistry`, `CodeSlot`, `Reader` and
the loops of the claim pass, the collision report, the stripper and the rewriter) the model does too, each
method proved against a function of values. Protocols are state machines over their atomic steps.

Where the code and its promises differ, the code is modelled and the difference is a result:

- The status report recomputes collisions over the routed sites in name order, not scan order, so with two
  explicit claims on one domain it can name a winner the router does not use (`ScanOrder.StatusReportExample`).
  It names the right one exactly when the first site to want the domain explicitly is the same in both orders
  (`ScanOrder.StatusReportAgreesIff`).
- A stored delta that leaves a claimant no exact domain has its apex restored, and the next exact AddDomain
  silently takes the apex away (`DomainRelease.RestoredApexIsDisplaced`). Nothing else displaces an owner
  (`DomainRequests.AddDomainGrants`, an if and only if). Five requests reach such a delta from a configuration
  without any, by way of a directory linked under another name (`LostApex.RequestsCanLoseAnApex`); as long as
  claimants keep their names no run does (`Runs.DeltasStayWellFormed`).
- Linking a directory under another name carries a delta written for the old name; the deltas stay
  well-formed exactly under the condition of `DeltaInvariant.LinkKeepsWellFormedIff`.
- Park then Unpark drops what was recorded below a path, at any depth, so it is an inverse only under the
  condition of `Undo.ParkThenUnpark`.
- Link then Unlink forgets what was recorded for a directory whose parent is not a parked root
  (`LinkUnlink.LinkThenUnlinkBelow`, an if and only if).
- A refused RemoveDomain can leave an empty entry on the configuration it was given, and no other refused
  request leaves anything (`Refusals.RefusalLeavesNoTraceIff`). The commit protocol drops that clone
  (`Commit.FailureChangesNothing`).
- ListProjects takes the router before config, against the documented order. Handlers can deadlock exactly when
  it runs beside one that rewrites the router (`Locks.DeadlockIff`); otherwise all of them finish
  (`Locks.HandlersFinish`).
- A redemption reads the clock before it waits for the code slot, so what precedes expiry is the reading
  (`LanSetup.CodesAreOneTime`), not the redemption (`LanSetup.RedemptionCanBeLate`).
- Setting a JSON version overwrites the key when the key is the last string on its line
  (`Version.KeyAloneIsLost`, `Version.JsonStaysIff`), and rewriting any line drops carriage returns
  (`Version.RewriteIsFaithfulIff`).

What the environment contributes is a parameter: canonical paths, parsed domains, targets and rules (a
rejected argument is `None`), the result of a directory scan, whether a save or a scan fails, the clock and
the random code. A scan returns every linked site, and parked sites only under names that are not linked, as
`bin/orckerd/src/startup.rs:512-545` does. Theorems about claimants that keep their names take the naming of
directories as a function. A save writes a temporary file and renames it
(`crates/orcker-config/src/io.rs:27-54`), so it either happens or does not.

## Model

| member | source | states |
|---|---|---|
| `Domains.EffectiveSet` | crates/orcker-core/src/domain.rs:177-195 | the effective set has no repeats, always an exact domain, and holds exactly the added domains plus the apex when it is not suppressed or nothing exact is left |
| `Domains.ComputeEffective` | crates/orcker-core/src/domain.rs:177-195 | the in-place construction yields the effective sequence, order included |
| `Domains.EffectiveOrder` | crates/orcker-core/src/domain.rs:175-195 | the order of the set: an implied apex first, then the extra domains in the order they were added, each where it first occurs |
| `Domains.PrimaryIsConcrete` | crates/orcker-core/src/domain.rs:203-225 | the chosen primary is an exact member of the effective set |
| `Domains.PrimaryIs` | crates/orcker-core/src/domain.rs:203-225 | which one: the stored primary while exact and in the set, else the apex, else the first exact domain |
| `Router.SiteRouter.Check` | crates/orcker-core/src/router.rs:214-231 | an insertion is refused exactly for a taken name or an already routed domain, with the source's precedence |
| `Router.SiteRouter.Index` | crates/orcker-core/src/router.rs:233-240 | the loop that indexes a claimant's domains adds exactly those keys |
| `Router.SiteRouter.InsertWithDomains` | crates/orcker-core/src/router.rs:208-246 | a refused insertion changes nothing, an accepted one adds the site, its domains, its primary and its index entries |
| `Router.SiteRouter.InsertProxyWithDomains` | crates/orcker-core/src/router.rs:449-487 | the same for a whole-host proxy |
| `Router.CoherentSetsAreDisjoint` | crates/orcker-core/src/router.rs:134-160 | in a coherent router no two claimants list one domain |
| `Router.InsertKeepsIndex` | crates/orcker-core/src/router.rs:208-246 | insertion keeps the domain index in agreement with the listed sets |
| `Claims.BuildClaims` | bin/orckerd/src/site_domains.rs:337-358 | the one-pass claim loop records, for every domain, the declarative winner: earliest eligible explicit claimant, else the eligible claimant whose apex it is, and no other keys |
| `Claims.WantedHasOwner` | bin/orckerd/src/site_domains.rs:337-358 | every domain an eligible claimant wants has a declarative winner |
| `SiteDomains.PlanSites` | bin/orckerd/src/site_domains.rs:178-206 | the planning loop keeps the first site of each name with its effective set and primary |
| `SiteDomains.PlanProxies` | bin/orckerd/src/site_domains.rs:221-263 | configured proxies then project proxies, first of each name, marked shadowed when a site bears the name |
| `Upstreams.RoutedProxies` | bin/orckerd/src/site_domains.rs:221-287 | the routed proxies, exactly: a name no scanned site bears goes to its first configured proxy, else to 127.0.0.1 and the port of its first project that has one, with that project's secure flag; no other name is proxied |
| `Upstreams.ValidUpstreamsAreRouted` | crates/orcker-core/src/project.rs:83-97 | in a valid configuration every proxy and every project that no scanned site shadows is routed, to its own target or its own loopback port |
| `SiteDomains.KeepFirstFacts` | bin/orckerd/src/site_domains.rs:178-206 | first-of-each-name keeps every name once and only scanned elements |
| `RouterBuild.MakePlanIsGood` | bin/orckerd/src/site_domains.rs:178-263 | plans have distinct names per list, repeat-free effective sets, and a proxy named like a planned site is marked shadowed |
| `RouterBuild.PlanIsTruthful` | bin/orckerd/src/site_domains.rs:178-263 | every planned claimant is offered an exact domain, and a proxy is marked shadowed if and only if some scanned site bears its name |
| `RouterBuild.EligibleNamesAreDistinct` | bin/orckerd/src/site_domains.rs:304-320 | no two claimants that may win share a name |
| `RouterBuild.EntriesAreDeconflicted` | bin/orckerd/src/site_domains.rs:50-84 | what is inserted has pairwise distinct names and pairwise disjoint domain sets |
| `RouterBuild.CollectWon` | bin/orckerd/src/site_domains.rs:58-66 | the filter over claims keeps exactly the domains the claimant owns, in order |
| `RouterBuild.RulesLand` | bin/orckerd/src/site_domains.rs:84-107 | every site's rules land under its name whichever key stored them, and nothing else is attached |
| `RouterBuild.AttachRules` | bin/orckerd/src/site_domains.rs:84-107 | the rule loop attaches those rules and leaves the rest of the router alone |
| `RouterBuild.BuildRouter` | bin/orckerd/src/site_domains.rs:50-109 | the in-place build yields the router value every other result is about |
| `Insertion.InsertNeverFails` | bin/orckerd/src/site_domains.rs:62-83 | for de-conflicted entries both insert-error arms are unreachable |
| `Insertion.InsertEntries` | bin/orckerd/src/site_domains.rs:57-84 | the insertion loop adds every entry, with no error, for any plan |
| `Insertion.RoutesHoldEntries` | bin/orckerd/src/site_domains.rs:57-84 | after it the router holds exactly the entries, each under its own name, and its index is coherent |
| `Ownership.OwnershipRule` | bin/orckerd/src/site_domains.rs:337-358 | the router's owner of a domain has a stake nobody beats, explicit over apex and earlier over later; a domain has no owner only if no eligible claimant lists it |
| `Ownership.ApexClaimIsUnique` | bin/orckerd/src/site_domains.rs:304-358 | two implicit claims on one domain are the same claimant, so implicit ties cannot occur |
| `Ownership.EveryClaimIsRoutedOnce` | bin/orckerd/src/site_domains.rs:50-84 | every domain an eligible claimant lists is in exactly one routed set, that of its indexed owner; site and proxy names are disjoint |
| `Ownership.EveryEligibleClaimantIsRouted` | bin/orckerd/src/site_domains.rs:50-84 | every eligible claimant is in the router with exactly the domains it won and its primary |
| `Ownership.RoutedSiteIsFirst` | bin/orckerd/src/site_domains.rs:178-206 | every routed site is the first scanned one of its name |
| `Ownership.RoutedPrimaryIsConcrete` | crates/orcker-core/src/domain.rs:203-225 | in every built router a claimant's primary is no wildcard, and is one of its own domains whenever it holds an exact one |
| `Collisions.FindCollisions` | bin/orckerd/src/site_domains.rs:132-167 | one report for exactly the domains wanted by two claimants of which one is eligible, with the owner as winner and all the others, shadowed proxies included, as losers |
| `Collisions.CollisionReport` | bin/orckerd/src/site_domains.rs:132-167 | the same for a configuration and a scan |
| `Collisions.ReportIsDetermined` | bin/orckerd/src/site_domains.rs:132-167 | for given claimants there is one such report, order included |
| `Collisions.WinnerIsRouted` | bin/orckerd/src/site_domains.rs:132-167 | the reported winner is the claimant the built router routes the domain to |
| `Collisions.ContestedIff` | bin/orckerd/src/site_domains.rs:132-167 | a collision is reported exactly for a routed domain that some claimant, shadowed proxies included, lists and is not routed |
| `Collisions.OthersFacts` | bin/orckerd/src/site_domains.rs:156-160 | the losers are exactly the claimants that want the domain and do not own it |
| `ScanOrder.ScanOrderIsIrrelevant` | bin/orckerd/src/site_domains.rs:111-116 | for distinctly named sites without a shared explicit domain, every permutation of the scan builds the very same router |
| `ScanOrder.ScanOrderMattersIff` | bin/orckerd/src/site_domains.rs:111-116 | ownership is independent of the scan order if and only if no two sites share an explicit domain |
| `ScanOrder.FirstWisherOwns` | bin/orckerd/src/site_domains.rs:337-358 | the first site scanned that wants a domain explicitly owns it |
| `ScanOrder.OwnersAgreeIff` | bin/orckerd/src/site_domains.rs:111-116 | two orders of one scan give a domain the same owner if and only if the first site to want it explicitly is the same in both |
| `ScanOrder.StatusReportAgreesIff` | bin/orckerd/src/ipc_server.rs:523-536 | for a contested domain the status report names the claimant the router serves if and only if the first routed site to want it explicitly is the same by scan order and by name |
| `ScanOrder.StatusReportExample` | bin/orckerd/src/ipc_server.rs:523-536 | two directories given one domain, scanned against the order of their names: the router serves the one, the report names the other |
| `Validation.Check` | crates/orcker-config/src/parse.rs:885-901 | the validator's checks, in the source's order, find no fault exactly in a valid configuration |
| `Validation.CheckLinked` | crates/orcker-config/src/parse.rs:1257-1265 | the seen-set loop finds a fault exactly when two linked sites share a name |
| `Validation.CheckGroups` | crates/orcker-config/src/parse.rs:1108-1130 | exactly when a group name is empty, reserved or repeated in any case, or a membership names no listed group |
| `Validation.CheckDelta` | crates/orcker-config/src/parse.rs:1068-1096 | exactly when a delta repeats an added domain, suppresses an added one or has a wildcard primary |
| `Validation.CheckRules` | crates/orcker-config/src/parse.rs:1022-1036 | exactly when a site is unknown, a prefix is repeated or a target loops back |
| `Validation.CheckProxies` | crates/orcker-config/src/parse.rs:957-985 | exactly when a proxy's name is taken or its target loops back, or the proxy rules are at fault |
| `Validation.CheckProjects` | crates/orcker-config/src/parse.rs:918-940 | exactly when a project's name is taken by a site, a proxy or a project, or its port is zero or taken |
| `Validation.ValidNamesAreDistinct` | crates/orcker-config/src/parse.rs:903-940 | in a valid configuration no two of its sites, proxies and projects share a name |
| `MutateImpl.ConfigFile.Mutate` | bin/orckerd/src/mutate.rs:88-133 | the in-place dispatch leaves the configuration and returns the error that the value-level account says, for every request |
| `Reasons.RefusedForItsReason` | bin/orckerd/src/mutate.rs:88-962 | every request is refused exactly for its reason and with that error, the reasons being one declarative account of all 21, from DNS labels and looping targets to the last exact domain |
| `MutateImpl.ConfigFile.Link` | bin/orckerd/src/mutate.rs:151-180 | linking promotes delta and both rule lists from the document root to the name and appends the site; refusals change nothing |
| `MutateImpl.ConfigFile.Unlink` | bin/orckerd/src/mutate.rs:226-266 | a project goes first; otherwise records return to the document root when its parent is parked, else are dropped |
| `LinkUnlink.LinkMoves` | bin/orckerd/src/mutate.rs:151-180 | an accepted Link appends the site, linked, at the path, with default flags, moves each of the directory's three records to the name, and changes nothing else |
| `LinkUnlink.UnlinkMoves` | bin/orckerd/src/mutate.rs:226-277 | an accepted Unlink of a site at an entry of a parked root moves each of its three records back to that path, and changes nothing else |
| `SiteRecords.UnlinkProjectStores` | bin/orckerd/src/mutate.rs:227-235 | Unlink of a project's name takes the projects of that name and its delta, in order, and nothing else |
| `Paths.ParentOfBelow` | bin/orckerd/src/mutate.rs:272-277 | the parent of a directory's entry is the directory |
| `Paths.ParentIff` | bin/orckerd/src/mutate.rs:272-277 | of a canonical path the parent is the one directory it is an entry of; only the root has none |
| `Text.Position` | bin/orckerd/src/mutate.rs:286 | the search loop finds the first element that satisfies a test, or the end |
| `Text.UpdateFirstAt` | bin/orckerd/src/mutate.rs:286-306 | find-and-set changes the first element that satisfies the test and no other |
| `Text.Retain` | bin/orckerd/src/mutate.rs:377 | the retain loop keeps the elements that satisfy a test |
| `Text.FilterFacts` | bin/orckerd/src/mutate.rs:377-387 | retaining keeps exactly those elements, and the length stays if and only if every element does |
| `Text.FilterPositions` | bin/orckerd/src/mutate.rs:377 | and keeps them in their order |
| `Text.RetainEntries` | bin/orckerd/src/mutate.rs:191-199 | the retain loop over a map keeps exactly the entries that satisfy a test, unchanged |
| `MutateImpl.ConfigFile.TouchEntry` | bin/orckerd/src/mutate.rs:594-600 | the claimant's entry exists afterwards, with the value it had or the default |
| `MutateImpl.ConfigFile.WriteAndPrune` | bin/orckerd/src/mutate.rs:604-638 | a touched entry written back is pruned exactly when it carries nothing |
| `MutateImpl.ConfigFile.AddDomain` | bin/orckerd/src/mutate.rs:673-697 | touch, edit and prune amount to storing the edited delta |
| `MutateImpl.ConfigFile.RemoveDomain` | bin/orckerd/src/mutate.rs:699-741 | the same, with the entry left touched on the two late refusals |
| `MutateImpl.ConfigFile.SetPrimaryDomain` | bin/orckerd/src/mutate.rs:746-779 | the same for the primary domain |
| `MutateImpl.ConfigFile.ResetDomains` | bin/orckerd/src/mutate.rs:781-802 | the claimant's delta is forgotten |
| `MutateImpl.ConfigFile.RemoveProxy` | bin/orckerd/src/mutate.rs:374-387 | the length test after the retain tells whether there was such a proxy |
| `MutateImpl.ConfigFile.AddProxyRule` | bin/orckerd/src/mutate.rs:400-430 | a rule joins the site's list unless its prefix is taken |
| `MutateImpl.ConfigFile.RemoveProxyRule` | bin/orckerd/src/mutate.rs:434-467 | the prefix is normalised and removed, an emptied list is pruned |
| `MutateImpl.ConfigFile.AddRouteRule` | bin/orckerd/src/mutate.rs:474-501 | the same for a routing rule |
| `MutateImpl.ConfigFile.RemoveRouteRule` | bin/orckerd/src/mutate.rs:505-538 | the same for a routing rule |
| `MutateImpl.ConfigFile.SetGroupOrder` | bin/orckerd/src/mutate.rs:860-875 | sorting both lists and comparing accepts exactly the permutations |
| `MutateImpl.ConfigFile.RenameGroup` | bin/orckerd/src/mutate.rs:922-962 | the slot and every member value naming the group are overwritten |
| `MutateImpl.IsPermutation` | bin/orckerd/src/mutate.rs:861-869 | comparing sorted copies decides equality of multisets |
| `MutateImpl.ComputePrefix` | bin/orckerd/src/mutate.rs:331-337 | the loop drops trailing slashes down to a lone one |
| `MutateImpl.DropRule` | bin/orckerd/src/mutate.rs:447-463 | retain, length test and prune on one rule map |
| `DomainRequests.AddDomainGrants` | bin/orckerd/src/mutate.rs:673-697 | after an accepted AddDomain and a rebuild on the same scan the domain belongs to the named claimant, and no other owner changed if and only if no restored apex was displaced |
| `DomainRequests.SetPrimaryGrants` | bin/orckerd/src/mutate.rs:746-779 | the same for SetPrimaryDomain, and the domain is then the claimant's primary |
| `DomainRequests.EffectiveAfterAdd` | bin/orckerd/src/mutate.rs:685-691 | an added domain joins the effective set and takes nothing away but a restored apex |
| `DomainRelease.GrantsNothingElse` | bin/orckerd/src/mutate.rs:647-697 | from well-formed deltas, accepted AddDomain and SetPrimaryDomain grant that domain and move no other, on every scan of directory-derived names |
| `DomainRelease.RemoveDomainReleases` | bin/orckerd/src/mutate.rs:699-741 | after an accepted RemoveDomain no other owner changed, and the claimant gave the domain up unless it is its still-implied apex |
| `DomainRelease.RemovalIsExact` | bin/orckerd/src/mutate.rs:699-741 | from well-formed deltas the claimant gives the domain up and no other owner changes |
| `DomainReset.ResetRestoresDefault` | bin/orckerd/src/mutate.rs:781-802 | an accepted ResetDomains removes the claimant's delta and no other; after a rebuild the claimant is offered its apex alone, owns no other domain and shows its apex, and whatever anyone else owned they still do |
| `DomainRelease.RestoredApexIsDisplaced` | crates/orcker-core/src/domain.rs:177-195 | every claimant, linked, parked or proxy, that owns a restored apex loses it to the next exact domain it adds |
| `LostApex.RequestsCanLoseAnApex` | bin/orckerd/src/mutate.rs:151-741 | five committed requests, from any configuration with one parked root and no delta, reach such a restored apex |
| `DomainRelease.AddThenRemove` | bin/orckerd/src/mutate.rs:673-741 | adding a new extra domain and removing it restores the configuration if and only if the domain was not the recorded primary, an exact domain remained without it, and no empty entry was stored |
| `DomainRelease.AddThenRemoveRestores` | bin/orckerd/src/mutate.rs:673-741 | from well-formed deltas every accepted AddDomain of a new extra domain is undone exactly by RemoveDomain |
| `Refusals.RefusalLeavesNoTraceIff` | bin/orckerd/src/mutate.rs:88-133 | for every request: a refusal leaves its argument unchanged if and only if it is not a RemoveDomain, with a well-formed domain, of a claimant that has no entry |
| `Refusals.RefusedRemoveLeavesATrace` | bin/orckerd/src/mutate.rs:712-730 | such a refusal, for every linked site without a delta and every domain but its apex |
| `DeltaInvariant.DomainRequestKeepsWellFormed` | bin/orckerd/src/mutate.rs:594-802 | every accepted domain request keeps every stored delta non-empty, repeat-free, about its own apex only to suppress it, with an exact primary among the added and an exact domain left |
| `DeltaInvariant.RequestKeepsWellFormed` | bin/orckerd/src/mutate.rs:88-133 | so does every other accepted request on claimants that keep their names |
| `DeltaInvariant.LinkKeepsWellFormedIff` | bin/orckerd/src/mutate.rs:166-169 | a Link keeps them so if and only if the name is the directory's own, or its delta neither suppresses anything nor lists the new name |
| `DeltaInvariant.LinkUnderAnotherName` | bin/orckerd/src/mutate.rs:166-169 | a Link that breaks it, concretely |
| `DeltaInvariant.WellFormedValidates` | crates/orcker-config/src/parse.rs:1068-1096 | well-formed deltas pass the validator |
| `LinkUnlink.LinkThenUnlinkBelow` | bin/orckerd/src/mutate.rs:151-277 | Link then Unlink of a fresh name at an entry of a directory restores the configuration exactly if and only if that directory is a parked root or nothing was recorded for the entry, and in the other case nothing recorded for it survives |
| `LinkUnlink.RequestKeepsLinkedKeys` | bin/orckerd/src/mutate.rs:88-133 | every accepted request keeps linked-side deltas and rules on linked sites only |
| `LinkUnlink.CommittedLinkIsNoProject` | crates/orcker-config/src/parse.rs:918-940 | validation refuses a Link under a project's name, as the round trip needs |
| `Groups.RequestKeepsGroups` | bin/orckerd/src/mutate.rs:808-962 | every accepted request keeps group names trimmed, non-empty, not reserved and distinct ignoring case, and every membership byte-equal to a listed name |
| `Groups.CreateIsSound` | bin/orckerd/src/mutate.rs:808-833 | a created group keeps that |
| `Groups.CreateAppends` | bin/orckerd/src/mutate.rs:808-833 | a group is created exactly under a trimmed name that is not empty, not reserved and not taken in any case, and goes last |
| `Groups.TrimTakesSpace` | bin/orckerd/src/mutate.rs:809 | trimming takes the white space off both ends, all of it, and nothing else |
| `Groups.ReorderIsSound` | bin/orckerd/src/mutate.rs:860-875 | a permutation keeps that |
| `Groups.ReorderStores` | bin/orckerd/src/mutate.rs:860-875 | an order is accepted exactly when it permutes the listed names, and then is the order |
| `Groups.RenameKeepsPlaces` | bin/orckerd/src/mutate.rs:922-962 | a rename changes one name in place and every member stays in the group at the same position |
| `Groups.RenameKeepsPartition` | bin/orckerd/src/mutate.rs:922-962 | members share a group afterwards if and only if they did before |
| `Groups.DeleteForgetsExactly` | bin/orckerd/src/mutate.rs:838-853 | a deleted group takes exactly its own members with it |
| `Groups.DeleteStores` | bin/orckerd/src/mutate.rs:838-853 | exactly the names that differ from it in more than case stay, in their order |
| `Groups.AssignIsSound` | bin/orckerd/src/mutate.rs:884-911 | a member is recorded in the listed spelling of the group asked for |
| `Groups.AssignStores` | bin/orckerd/src/mutate.rs:884-911 | a site is put in the listed group of that name in any case, or in none, and no other site moves |
| `Text.SameIgnoringCaseIff` | bin/orckerd/src/mutate.rs:844-847 | ignoring case is equality character by character up to the case of an ASCII letter |
| `Groups.SoundGroupsValidate` | crates/orcker-config/src/parse.rs:1108-1130 | sound groups pass the validator |
| `ProxyRequests.AddProxyGrants` | bin/orckerd/src/mutate.rs:343-370 | after an accepted AddProxy of a fresh name and a rebuild on the same scan, the proxy owns its apex and no other owner changed |
| `SiteRecords.AddProxyIsServed` | bin/orckerd/src/mutate.rs:343-370 | AddProxy is accepted exactly for a free name, a free apex and a target that does not loop back, and the rebuilt router sends the name to that target, not secure |
| `SiteRecords.RemoveProxyStores` | bin/orckerd/src/mutate.rs:374-387 | RemoveProxy takes every proxy of the name and its delta, keeps the others in order, and changes nothing else |
| `RuleRequests.AddProxyRuleServes` | bin/orckerd/src/mutate.rs:391-430 | AddProxyRule is accepted exactly for a routed site that serves no rule of the prefix and a target that does not loop back; the rebuilt router serves the site's old rules and then this one, and is otherwise the same |
| `RuleRequests.RemoveProxyRuleServes` | bin/orckerd/src/mutate.rs:434-467 | RemoveProxyRule is accepted exactly when the site serves a rule of the normalised prefix; the rebuilt router serves its other rules, has no entry when none is left, and is otherwise the same |
| `RuleRequests.AddRouteRuleServes` | bin/orckerd/src/mutate.rs:474-501 | the same for a routing rule |
| `RuleRequests.RemoveRouteRuleServes` | bin/orckerd/src/mutate.rs:505-538 | the same for a routing rule |
| `ProxyKeys.RequestKeepsProxyKeys` | bin/orckerd/src/mutate.rs:88-133 | every accepted request keeps proxy-side deltas on proxies and projects only |
| `Undo.AddThenRemoveProxy` | bin/orckerd/src/mutate.rs:343-387 | AddProxy then RemoveProxy restores the configuration if and only if no delta was stored under that name |
| `Undo.AddThenRemoveRule` | bin/orckerd/src/mutate.rs:400-467 | adding a rule and removing it restores the section if and only if the site had no empty rule list stored |
| `Undo.NormalizeTwice` | bin/orckerd/src/mutate.rs:331-337 | normalising a prefix twice is normalising it once |
| `Paths.NormalizedPrefix` | bin/orckerd/src/mutate.rs:331-337 | normalising takes off trailing slashes and nothing else, down to a lone one |
| `Undo.ParkedFlags` | bin/orckerd/src/mutate.rs:291-296 | a parked site's flags are recorded for its document root alone, and the last setting counts |
| `Undo.LastSecureCounts` | bin/orckerd/src/mutate.rs:279-311 | whatever claimant a name resolves to, or none, setting its secure flag twice is setting it the second time |
| `Undo.LastFrontControllerCounts` | bin/orckerd/src/mutate.rs:543-562 | the same for the front controller flag |
| `SiteRecords.ScansAreScans` | bin/orckerd/src/startup.rs:512-557 | what a scan returns, parked directories under names that are not linked and then the linked sites, meets what the results about requests ask of a scan |
| `SiteRecords.LinkIsServed` | bin/orckerd/src/startup.rs:512-557 | after an accepted Link the next scan serves the site linked, at the path given, not secure, without a front controller setting |
| `SiteRecords.ValidLinkedIsServed` | bin/orckerd/src/startup.rs:512-557 | in a valid configuration every linked site is served as it is configured |
| `SiteRecords.LinkedSecureIsServed` | bin/orckerd/src/mutate.rs:286-290 | a linked site's secure flag is stored with the first site of the name alone, and served by the next scan |
| `SiteRecords.LinkedFrontControllerIsServed` | bin/orckerd/src/mutate.rs:550-553 | the same for the front controller flag |
| `SiteRecords.ParkedFlagsAreServed` | bin/orckerd/src/startup.rs:603-640 | a parked site's flags are served whenever the next scan finds its directory under the name again |
| `SiteRecords.ProxySecureIsServed` | bin/orckerd/src/mutate.rs:297-301 | a proxy's secure flag is stored with it alone and served |
| `SiteRecords.ProjectSecureIsServed` | bin/orckerd/src/mutate.rs:302-306 | a project's secure flag is stored with it alone and served on its port |
| `Undo.ParkThenUnpark` | bin/orckerd/src/mutate.rs:135-206 | Park then Unpark restores the configuration if and only if the path was not parked and nothing was recorded at or below it |
| `Undo.ParkAndUnparkStore` | bin/orckerd/src/mutate.rs:135-206 | Park adds the path and nothing else; Unpark takes the root away with every record keyed by it or by a continuation after a slash, and nothing else |
| `Paths.UnderRootIff` | bin/orckerd/src/mutate.rs:212-220 | a path is under a root exactly when it is the root or the root, a slash and anything |
| `Commit.RunRefines` | bin/orckerd/src/ipc_server.rs:1188-1427 | every interleaving of mutations, project links, group edits, setters, reports and rescans amounts to a run of whole handlers one after another |
| `Commit.NextRefines` | bin/orckerd/src/ipc_server.rs:1392-1427 | every single step is invisible from outside the mutex or is one whole handler |
| `Commit.FailureChangesNothing` | bin/orckerd/src/ipc_server.rs:1201-1246 | a handler that fails, wherever it fails, has changed neither memory, disk nor router |
| `Commit.RunStaysInStep` | bin/orckerd/src/ipc_server.rs:1719-1752 | whenever the mutex is free, and for whoever has just been given it, the router is the build of memory on the last scan and a saved disk equals memory, for any handlers whose builds ignore groups and settings |
| `Commit.RouterIsNeverTorn` | bin/orckerd/src/ipc_server.rs:1418-1421 | a reader without the mutex always sees a router built from one configuration, the old or the new |
| `Commit.SavedStaysSaved` | bin/orckerd/src/ipc_server.rs:1414-1418 | after any successful save, disk equals memory at every later moment the mutex is free |
| `Commit.SettersWriteTheirOwn` | bin/orckerd/src/ipc_server.rs:966-1118 | a setter writes its own setting and leaves every other as it was |
| `Runs.BuildReads` | bin/orckerd/src/site_domains.rs:50-109 | a build depends on the TLD, deltas, proxies, projects and rules only |
| `Runs.DaemonIgnoresOverlay` | bin/orckerd/src/ipc_server.rs:1713-1718 | so skipping the rebuild for groups and settings is sound |
| `Runs.DaemonStaysInStep` | bin/orckerd/src/fs_watch.rs:89-111 | the in-step result for the daemon's own build and handlers |
| `Runs.ReachableIsSound` | bin/orckerd/src/ipc_server.rs:1188-1246 | in every interleaving the configuration held when the mutex is free is valid, has linked-side records for linked sites only, proxy-side deltas for proxies and projects only, and sound groups |
| `Runs.ProxyGrantIsExact` | bin/orckerd/src/mutate.rs:338-370 | in any sound state every committed AddProxy that meets the same scan moves exactly its apex |
| `Runs.CommittedProjectIsRouted` | bin/orckerd/src/ipc_server.rs:1248-1427 | a committed LinkProject adds the project and nothing else, and unless a scanned site bears its name the router sends that to its loopback port |
| `Runs.UncheckedEditsStayValid` | bin/orckerd/src/ipc_server.rs:1048-1118 | the setters that skip validation cannot make a valid configuration invalid |
| `Runs.DeltasStayWellFormed` | bin/orckerd/src/mutate.rs:594-802 | over every run of whole handlers on claimants that keep their names, deltas stay well-formed |
| `Runs.ReachableDeltas` | bin/orckerd/src/mutate.rs:594-802 | and so in every interleaving |
| `Runs.EveryGrantIsExact` | bin/orckerd/src/mutate.rs:647-779 | anywhere in such a run an accepted AddDomain or SetPrimaryDomain that meets the same scan moves exactly its own domain |
| `Locks.ProgramsAreOrdered` | bin/orckerd/src/fs_watch.rs:29-31 | a handler takes its locks in rank order if and only if it is not ListProjects; with shared router guards disregarded, if and only if it does not rewrite the router |
| `Locks.HandlersNeverDeadlock` | bin/orckerd/src/ipc_server.rs:1201-1427 | any number of handlers of kinds that do not hold both ListProjects and one that rewrites the router, in any interleaving over fair locks: exclusion holds, no circular wait of any length, and something can move while anything is unfinished |
| `Locks.DeadlockIff` | bin/orckerd/src/ipc_server.rs:255-260 | handlers of a set of kinds can reach a state where some are unfinished and none can move if and only if the set holds ListProjects together with a committing mutation, a committing link or the watcher rescan |
| `Locks.HandlersFinish` | bin/orckerd/src/ipc_server.rs:1201-1427 | once no more handlers start, the operations left bound every continuation, with equality exactly when all handlers are done, and a continuation that cannot go on has finished them all |
| `Locks.NoCircularWait` | bin/orckerd/src/state.rs:7-8 | lock-ordered tasks never wait in a circle, queue positions included |
| `Locks.SomethingRuns` | bin/orckerd/src/state.rs:7-8 | from any unfinished task one reaches a task that can run |
| `Locks.ClashDeadlocks` | bin/orckerd/src/ipc_server.rs:255-260 | for every such set a reachable state in which ListProjects and the other handler wait for each other and neither can ever move |
| `LanSetup.CodeSlot.Consume` | bin/orckerd/src/lan_setup.rs:156-167 | succeeds exactly for the stored, unused, unexpired value, marks it used then, and changes nothing otherwise |
| `LanSetup.ConstantTimeEq` | bin/orckerd/src/lan_setup.rs:222-229 | the comparison without early exit is equality |
| `LanSetup.ExtractCode` | bin/orckerd/src/lan_setup.rs:207-217 | returns a value exactly when it is the non-empty text after `code=` in the first piece that has such a text |
| `LanSetup.LinkCarriesItsCode` | bin/orckerd/src/lan_setup.rs:207-217 | a query that is `code=` and a value carries that value |
| `LanSetup.SplitJoins` | bin/orckerd/src/lan_setup.rs:209 | splitting at ampersands loses nothing |
| `LanSetup.Decide` | bin/orckerd/src/lan_setup.rs:115-132 | not allowed exactly for other methods, not found exactly for other paths, and the script exactly when the query carries the stored, unused, unexpired code, which uses it up and nothing else does; in particular for the link made of that code |
| `LanSetup.CodesAreOneTime` | bin/orckerd/src/ipc_server.rs:1104-1180 | in every interleaving each mint is redeemed at most once, on a clock reading before its expiry, and with the mutex free and LAN off no code is stored |
| `LanSetup.RedemptionIsOfTheNewest` | bin/orckerd/src/lan_setup.rs:156-167 | only the newest mint, never a revoked one, can be redeemed |
| `LanSetup.RevocationIsFinal` | bin/orckerd/src/ipc_server.rs:1094-1118 | once LAN has been off with the mutex free, only later mints are ever redeemed |
| `LanSetup.WrongGuessesChangeNothing` | bin/orckerd/src/lan_setup.rs:151-167 | no number of wrong guesses changes the stored code or what redeems it |
| `LanSetup.RedemptionCanBeLate` | bin/orckerd/src/lan_setup.rs:157-158 | a peer that reads the clock in time and then waits, however long, still redeems |
| `Jobs.SuffixInverts` | bin/orckerd/src/jobs.rs:165-170 | the suffix of a printed id is the number it was printed from |
| `Jobs.PruneTerminal` | bin/orckerd/src/jobs.rs:148-163 | running jobs all stay, at most the cap of terminal ones does, and those that go are older than those that stay |
| `Jobs.PruningIsDetermined` | bin/orckerd/src/jobs.rs:148-163 | that leaves one possible result, whatever order the map is walked in |
| `Jobs.JobRegistry.Create` | bin/orckerd/src/jobs.rs:57-74 | a new running job under a new id, over the pruned registry, with at most the cap of terminal jobs |
| `Jobs.JobRegistry.Insert` | bin/orckerd/src/jobs.rs:60-73 | the locked half of create, for an id reserved at any earlier time |
| `Jobs.JobRegistry.PushLog` | bin/orckerd/src/jobs.rs:84-97 | the stripped line joins the log and the excess is evicted; blank lines and unknown jobs change nothing |
| `Jobs.JobRegistry.Poll` | bin/orckerd/src/jobs.rs:117-133 | an unknown job is an error; otherwise the lines past the cursor and the next cursor |
| `JobStream.PollReturns` | bin/orckerd/src/jobs.rs:117-133 | a poll returns exactly the pushed lines past the cursor that are still held, and the cursor moves to the end |
| `JobStream.TranscriptIsExact` | bin/orcker/src/lib.rs:702-738 | what consecutive polls print is pushed lines in order, no line twice, and exactly those not evicted before they were polled for |
| `JobStream.NothingMissedIff` | bin/orckerd/src/jobs.rs:84-133 | nothing is missing if and only if no poll was more than the cap behind |
| `JobStream.ClientPrintsInOrder` | bin/orcker/src/lib.rs:702-738 | that holds of the producer's non-blank stripped lines in every interleaving of sends, drains, polls, finish and removal |
| `JobStream.TerminalPollDeliversTheTail` | bin/orckerd/src/ipc_server.rs:879-926 | a client that stops on a terminal state has polled to the producer's last line |
| `Framing.Reader.ReadLine` | bin/orcker/src/mcp_cmd.rs:241-253 | for any chunking, the next message as a line or too long or end of input, and the reader left after that message |
| `Framing.Reader.DiscardToNewline` | bin/orcker/src/mcp_cmd.rs:261-278 | drops up to and including the next newline, and terminates |
| `Framing.Reader.ReadUntil` | bin/orcker/src/mcp_cmd.rs:242-244 | the limited read returns the first line or its first bytes up to the limit |
| `Framing.Reader.ReadAll` | bin/orcker/src/mcp_cmd.rs:160-179 | reading to the end yields the inputs of the remaining stream, whatever its chunks |
| `Framing.InputsAreFramedSegments` | bin/orcker/src/mcp_cmd.rs:241-253 | those inputs are the newline split, segment by segment, up to the cap a line and beyond it too long |
| `Framing.SegmentsAreLossless` | bin/orcker/src/mcp_cmd.rs:232-240 | the split concatenates to the stream and every cut but the last is after its one newline |
| `Framing.SegmentsAreUnique` | bin/orcker/src/mcp_cmd.rs:232-240 | no other cutting does that |
| `Ansi.RunStrip` | bin/orckerd/src/ansi.rs:24-71 | the nested index loops compute the stripped text |
| `Ansi.SkipControl` | bin/orckerd/src/ansi.rs:35-45 | parameters, intermediates and an optional final character are skipped |
| `Ansi.SkipString` | bin/orckerd/src/ansi.rs:47-64 | a control string is skipped past BEL or ESC backslash, or to the end |
| `Ansi.StripOfRendering` | bin/orckerd/src/ansi.rs:11-23 | stripping any sequence of plain text and complete escape sequences leaves exactly the plain text |
| `Ansi.EveryInputParses` | bin/orckerd/src/ansi.rs:24-71 | every input is a sequence of plain text, complete escape sequences and ones that break off, and stripping leaves exactly its plain text |
| `Ansi.StripIsClean` | bin/orckerd/src/ansi.rs:24-71 | for every input the result has no ESC, is a subsequence of the input, and is unchanged by stripping again |
| `Version.SetThenGet` | xtask/src/version.rs:74-111 | on LF-only manifests what was set is read back and setting again leaves no trace of the first time, whenever the version line survives: always for Cargo |
| `Version.SetChangesOneLine` | xtask/src/version.rs:56-92 | every other line, the number of lines and the final newline are unchanged |
| `Version.IndexStaysIff` | xtask/src/version.rs:29-53 | after a set the version line is found in the same place if and only if it survives |
| `Version.JsonStaysIff` | xtask/src/version.rs:49-53 | a JSON line is still the version line if and only if the key was not the string replaced, or was replaced by itself |
| `Version.KeyAloneIsLost` | xtask/src/version.rs:84-92 | a key alone on its line is overwritten |
| `Version.ReplaceThenRead` | xtask/src/version.rs:15-26 | a replaced string reads back, keeps everything before it, and can be replaced again |
| `Version.FindCargoVersion` | xtask/src/version.rs:29-46 | the loop finds the first version line in an open package table |
| `Version.CargoIndexIs` | xtask/src/version.rs:29-46 | the line found is the first version line whose last preceding section header opens the package table |
| `Version.JsonIndexFromIs` | xtask/src/version.rs:49-53 | the line found is the first that starts with the quoted key |
| `Version.RewriteLine` | xtask/src/version.rs:56-71 | the loop joins the lines with one of them replaced |
| `Version.Set` | xtask/src/version.rs:74-92 | finding, replacing and rewriting compose to the set the results are about |
| `Version.LinesOfJoin` | xtask/src/version.rs:56-71 | joining and splitting gives the lines back |
| `Version.RewriteIsFaithfulIff` | xtask/src/version.rs:56-71 | joining the lines of a text gives the text back if and only if it has no carriage return before a newline |

## Left out

- Jobs.JobRegistry.Create: takes the counter and the lock in one go; `Reserve` and `Insert` are the two halves, and an id reserved early may be inserted late.
- Runs.DeltasStayWellFormed: assumes scans that name parked sites after their directories and Links under that name, without which it is false (`DeltaInvariant.LinkUnderAnotherName`).
- Locks.HandlersNeverDeadlock: leaves out the sets of handlers for which it is false (`Locks.DeadlockIff`).
- Version.SetThenGet: asks for LF-only text and a version without quotes or newlines; outside that the rewrite is not faithful (`Version.RewriteIsFaithfulIff`).
- PHP versions, web roots and the SetWebRoot request, the detection maps of WordPress and Laravel sites: independent fields beside the ones modelled, they would only repeat the flag requests.
- The refusal of a proxy target on a port the daemon itself has bound, which is checked against its live listeners.
- Validation of the fields left out here (listen, dump and LAN ports, web roots, services, PHP settings, tunnels).
- Parsing of domains, targets, names and paths, and request texts: arguments arrive parsed or rejected.
- Host resolution by the proxy (`SiteRouter::resolve`) and router removal: the daemon rebuilds instead of removing.
- How LinkProject plans a name and port, and its descriptor file: any project may be proposed, validation decides.
- Errors of the underlying reader in the line framer, and its lossy UTF-8 decoding.
- The width of 64-bit counters and job numbers: integers are unbounded.
- Cancellation of a handler between two of its steps when the daemon shuts down.
- Real time, random code generation, TLS, sockets, HTTP, downloads, elevation, the helper and the GUI.
- ProxyRequests.AddProxyGrants: asks for a name no project bears and no delta stored under it, which holds of every committed AddProxy in a reachable state (`Runs.ProxyGrantIsExact`).
