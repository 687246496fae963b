# Verified model of the openZro operator

The operator keeps two stores in step that it cannot update together: Kubernetes objects (spec, status, finalizers,
owner references) and the openZro management server (groups, setup keys, networks, routers, network resources,
policies, DNS records). This project models its controllers in Dafny and proves what holds over whole runs of them:
what is never leaked, what is never released too early, which states repeated passes settle in, and what those states
mean for the specs.

## How the model works

* **One class per controller.** The fields are the stores the controller reaches (maps of objects, tables of server
  rows). A pass is a method that changes them call by call, with the branches of the Go code.
* **Failures and crashes.** A pass gets the set `down` of its API calls that fail; a failing call has no effect. A
  crash after some call is the pass in which every later call, the status write included, is down, so one theorem over
  all `down` covers every cut.
* **Choices the code leaves open** (map iteration order, the order in which lists come back, the text of a server
  error, the plaintext of a new key) are parameters of the pass, and the theorems hold for every value of them.
* **Refinement.** Each method equals a function of the state before it; the lemmas about runs are about those
  functions. A run is a list of events, or a trace in which each step is a pass or a relation describing what users,
  the cluster and the server may do in between.
* **IDs** come from a counter and are never handed out twice (`tables.dfy`).

| files | what they cover |
|---|---|
| `tables.dfy`, `slices.dfy`, `names.dfy`, `finalizers.dfy` | server tables; list helpers; generated names and `namespace/name` keys; finalizers |
| `policy_objects.dfy`, `policy_registration.dfy`, `registration_diff.dfy`, `mapped_policies.dfy`, `policy_withdrawal.dfy` | how an OZResource enters and leaves the managed lists of OZPolicies, and what it makes of the policies mapped to it |
| `policy_sync.dfy`, `policy_settling.dfy`, `policy_leaks.dfy`, `policy_failures.dfy`, `policy_runs.dfy`, `policy_meaning.dfy`, `policy_refinement.dfy` | how an OZPolicy merges its resources into two remote policies, and the end-to-end theorem |
| `group_owners.dfy`, `group_outcomes.dfy` | OZGroups shared by OZResources: who owns them, and what a pass gets from them |
| `exempt_list.dfy`, `routing_peer.dfy`, `routing_peer_keys.dfy`, `routing_peer_settling.dfy`, `teardown.dfy`, `peer_outcomes.dfy` | OZRoutingPeer: setup key, exempt list, what passes settle, ordered deletion, how far a failing pass gets |
| `group_refs.dfy`, `setup_keys.dfy`, `router_trio.dfy`, `router_leaks.dfy` | NetworkRouter, Group and SetupKey, which wait for each other |
| `group_adoption.dfy`, `network_resource.dfy` | OZGroup adoption by name; NetworkResource and its DNS record |
| `service_ports.dfy`, `secret_index.dfy` | Service port filter; Secret-to-setup-key index |

`dafny verify dfyconfig.toml` checks everything.

## Where the code does less than one would expect

Each of these is proved, with the exact condition where the named lemma is an equivalence.

* **A stale Secret is never repaired.** When replacing an OZRoutingPeer's setup key fails after the key was created and
  before the old Secret was overwritten, later passes only check that the entry exists (`FailedUpdateGoesStale`,
  `StaleStays`). Two clean passes converge exactly from all other states (`TwoPassesConverge`).
* **An OZRoutingPeer without finalizers takes its setup key's name with it.** The operator sets finalizers only on peers
  it creates; any other peer goes at once, and its key leaks exactly if it is live then
  (`EnvironmentLeaksExactlyWhen`).
* **A recorded network is never looked at again.** Three clean passes settle a routing peer exactly when its status
  names no network that the server has lost (`ThreePassesSettle`, `RecordedNetworkStays`).
* **An exempt entry can outlive its routing peer**, exactly when the peer's group object or the ID in it is gone by the
  last deletion pass (`ExemptEntryGoesExactlyWhen`); one failed read of the account is enough
  (`ExemptEntrySurvives`).
* **A peer whose status names no network is torn down at once**, while any OZResource of any network holds up one whose
  status names a network (`TeardownCompletesExactlyWhen`).
* **A spec correction discards a registration.** Correcting a mapped OZPolicy reads its stored status back, so a
  resource that was not in the managed list ends the error-free pass outside it (`CorrectionDiscardsEntry`).
  **Withdrawal wins** when a name mapping makes the object of a listed policy also a dropped name of its own
  (`AliasWithdrawn`). `RegisteredExactlyWhen` says which policies list the resource after a pass, and
  `RegisteredPlainly` says it in terms of the state before the pass.
* **A policy generated for a resource is not removed with it** (`GeneratedPolicyStays`).
* **The recorded groups can lag behind** the resolved ones when these repeat an ID (`RecordedGroupsExactlyWhen`,
  `StaleGroupKept`).
* **A failed list or release of OZGroups does not stop an OZResource pass**: it goes on without any group ID
  (`GroupOutcomes.ProceedsExactlyWhen`).
* **One failed OZPolicy pass can leak two remote policies**, exactly when both are created and the status write that
  should name them fails (`TwoLeakExactlyWhen`); any other failure leaks at most one.
* **Deleting an OZPolicy can get stuck for ever.** `strings.Contains` has its arguments exchanged in the deletion path:
  a clean pass fails exactly when a recorded remote policy has already vanished and the server's message is not
  exactly `not found` (`DeletionProgress`), and so does every retry (`DeletionStuck`). It stays safe
  (`DeletionIsSafe`).
* **The requeue request is lost** exactly when the protocol handled second updates a live policy
  (`RequeueOverwritten`).
* **Generated names do not always strip back**: never when the policy name itself contains the suffix
  (`GeneratedNameLost`); in general exactly as `StripRecovers` says.
* **`Equivalent` is not multiset equality** when its second argument repeats an element (`EquivalentIsPermutation`).
* **A SetupKey pass orphans one key** exactly when it rotates and the new key is not recorded, or a live old one is not
  deleted (`RotationOrphansExactlyWhen`). A key that is `overused` is never replaced (`CleanPassOutcome`).
* **A shared remote group is deleted with the first OZGroup** if the server does not report it as linked
  (`DeletesExactlyWhen`); its namesake gets a new one two passes later (`NamesakeRecovers`).
* **A NetworkResource leaks** its old network resource if its router's network ID changes while the old resource is
  still live, and whatever it created if one of its two status patches fails
  (`NetworkResources.PassLeaksExactlyWhen`).
* **Two setup keys that name one Secret** can leave the Secret without any watcher (`SharedSecretForgotten`);
  a referencing key is missed exactly as `LookupMissesExactlyWhen` says.
* **Some annotation changes never reach the OZResource**: the comparison before the update skips friendly names and
  compares source groups by length and membership (`ExposedExactlyWhen`, `FriendlyNameLost`, `SourceGroupsLost`).
* **Ports a Service no longer lists stay** in its OZResource (`VisitsMembers`), and filter ports are compared in their
  low 32 bits only (`FilterMatchesModulo`).

## Model

| member | source | states |
|---|---|---|
| Slices.Without | internal/util/slices.go:6-14 | the list in its order without any occurrence of the element |
| Slices.Equivalent | internal/util/slices.go:17-33 | true exactly when the lengths agree and every member of the second list occurs in the first |
| Slices.EquivalentIsPermutation | internal/util/slices.go:17-33 | that test means multiset equality for all first lists if and only if the second list has no repeats |
| Slices.SplitTrim | internal/util/slices.go:36-46 | no names for the empty string, otherwise the pieces between separators, each trimmed |
| Slices.TrimIsMiddle | internal/util/slices.go:36-46 | trimming takes away a prefix and a suffix of white space and nothing else |
| Slices.SplitTrimUndoesJoin | internal/util/slices.go:36-46 | on non-empty lists of trimmed, separator-free names splitting undoes joining if and only if the list is not the single empty name |
| KeyNames.ParseUndoesPrint | internal/controller/ozpolicy_controller.go:47 | a managed-list entry splits into exactly the namespace and name it was printed from, when neither holds a slash |
| KeyNames.StripRecovers | internal/controller/ozpolicy_controller.go:78-91 | stripping the suffix everywhere yields the policy name if and only if the first occurrence reaches past the name and what follows it is what it took away |
| KeyNames.GeneratedNameRoundTrip | internal/controller/ozresource_controller.go:137-206 | the generated object name strips back to the policy name when the suffix occurs nowhere earlier in it |
| KeyNames.GeneratedNameLost | internal/controller/ozpolicy_controller.go:78-91 | a policy name that contains the suffix never comes back |
| Registration.ResourcePolicies.HandlePolicyCreate | internal/controller/ozresource_controller.go:137-206 | the policy objects, the resource status and the error after creating a generated policy, for every set of failing calls |
| Registration.ResourcePolicies.HandlePolicyAddUpdate | internal/controller/ozresource_controller.go:208-302 | the same for registering with one listed policy: creation if allowed, correction of a mapped one with the status read back by that update, entry in the managed list; `MappedPolicies` says what the mapped ones look like then |
| Registration.ResourcePolicies.HandlePolicyDelete | internal/controller/ozresource_controller.go:304-339 | the same for one recorded policy: kept if still listed, deletion requested if mapped, otherwise the key leaves its list |
| Registration.ResourcePolicies.HandlePolicy | internal/controller/ozresource_controller.go:342-372 | the whole pass is all registrations, then all withdrawals, stopping at the first error, and records the spec list only without error |
| Registration.RecordedGroupsExactlyWhen | internal/controller/ozresource_controller.go:247-251 | the recorded groups become the resolved ones if and only if the comparison sees a difference or they were equal; without repeats among the resolved ones they agree up to order |
| Registration.StaleGroupKept | internal/controller/ozresource_controller.go:247-251 | two recorded groups against one resolved twice keep the stale one |
| RegistrationDiff.HandlePolicyDiff | internal/controller/ozresource_controller.go:342-372 | after a successful pass exactly the enrolled and not struck policies list the resource; it has withdrawn from every unmapped dropped one, unmapped every mapped dropped one, which is gone or, if guarded, marked for deletion, set the status list to the spec list and changed nothing else, not even other keys in the lists it edits; only unguarded objects go |
| RegistrationDiff.RegisteredExactlyWhen | internal/controller/ozresource_controller.go:208-372 | an object lists the resource if and only if it did before or some adding step found it without a spec to correct or created it, and no removing step met its own name unmapped |
| RegistrationDiff.RegisteredPlainly | internal/controller/ozresource_controller.go:208-372 | the same condition on the state before the pass, for a listed policy that no other listed one shares its object with, and a status that repeats no name |
| RegistrationDiff.AliasWithdrawn | internal/controller/ozresource_controller.go:304-339 | the failing input: a policy mapped to an object whose own name the status still lists ends unregistered without error |
| RegistrationDiff.CorrectionDiscardsEntry | internal/controller/ozresource_controller.go:285-299 | the failing input: a mapped policy that needs a spec update and lacks the resource ends unregistered without error, and needs no further update |
| RegistrationDiff.PassRecordsGroups | internal/controller/ozresource_controller.go:247-251 | a successful pass records the resolved groups, up to that comparison, if and only if it found or created one of its policies |
| RegistrationDiff.HandPolicy | internal/controller/ozresource_controller.go:342-372 | any pass, failing or not, changes at most its own key in a hand-written policy; listed and successful means present, dropped and successful means absent |
| MappedPolicies.MappedAsAsked | internal/controller/ozresource_controller.go:137-302 | after a successful pass the object of a listed mapped policy that no other listed one leads to is annotated with the resource, bears its friendly or else the automatic name and its description, and covers its source groups; destinations, protocols, ports and direction are as before, or for a generated one none, none, none and both |
| MappedPolicies.GeneratedSays | internal/controller/ozresource_controller.go:137-206 | the same for each creation, an empty friendly name counting as none; an object taken over keeps its finalizers and IDs and gets the key appended |
| MappedPolicies.MadeAnew | internal/controller/ozresource_controller.go:147-205 | a policy made anew carries the cleanup finalizer, lists just the resource, names no remote policy and is recorded under its generated name |
| MappedPolicies.CreateFailsExactlyWhen | internal/controller/ozresource_controller.go:137-206 | creation fails if and only if there are no source groups or a call it needs fails |
| MappedPolicies.TouchFailsExactlyWhen | internal/controller/ozresource_controller.go:230-299 | registering with an existing policy fails if and only if a mapped one that is not as asked cannot be updated, or its status cannot be written when the key is missing or the recorded ports or groups differ |
| MappedPolicies.FailedTouchLeaves | internal/controller/ozresource_controller.go:230-299 | such a failure leaves all policies as they were, or brought one in line with its managed list as it was; the recorded ports and groups are up to date either way |
| MappedPolicies.PassRecordsSpec | internal/controller/ozresource_controller.go:235-251 | a successful pass that found or made one of its policies records the ports of the spec and the resolved groups, up to length and membership; any other leaves the record alone |
| PolicyWithdrawal.Withdraw | internal/controller/ozresource_controller.go:590-608 | the walk over the recorded policies of a resource being deleted, for every set of failing calls |
| PolicyWithdrawal.WithdrawsExactly | internal/controller/ozresource_controller.go:590-608 | only the key leaves, every other one stays, only from policies the status names, and from all of them if the walk succeeds |
| PolicyWithdrawal.WithdrawalFailsExactlyWhen | internal/controller/ozresource_controller.go:590-608 | the walk fails if and only if some policy cannot be read, or cannot be written when it first meets the key in it |
| PolicyWithdrawal.GeneratedPolicyStays | internal/controller/ozresource_controller.go:590-608 | a generated policy of the resource is left exactly as it was |
| PolicySync.PolicyReconciler.GetResources | internal/controller/ozpolicy_controller.go:42-63 | an error exactly when one read fails, otherwise the managed resources that exist and are not being deleted, in order |
| PolicySync.LiveKeysMembers | internal/controller/ozpolicy_controller.go:42-63 | pruning the managed list keeps exactly the live members |
| PolicySync.PolicyReconciler.GroupNamesToIds | internal/controller/ozpolicy_controller.go:375-393 | position by position each name becomes the ID of the last listed group of that name, or the empty string exactly when there is none |
| PolicySync.PolicyReconciler.MergeResources | internal/controller/ozpolicy_controller.go:77-101 | the merged ports are the set of spec ports of the selected resources, the groups their concatenated recorded groups; which resources are selected is `PolicyMeaning.GeneratedChooses` and `PolicyRefinement.RegisteredAreChosen` |
| PolicySync.PolicyReconciler.SortKeys | internal/controller/ozpolicy_controller.go:103-110 | whatever order the map is read in, the one strictly increasing list with the same members |
| PolicySync.PolicyReconciler.SyncProtocol | internal/controller/ozpolicy_controller.go:269-343 | server, status ID, requeue flag and error after one protocol, for every branch and failing call |
| PolicySync.PolicyReconciler.SyncPolicy | internal/controller/ozpolicy_controller.go:266-346 | the loop in either map order is the two protocol steps one after the other, up to the first error |
| PolicySync.PolicyReconciler.HandleDelete | internal/controller/ozpolicy_controller.go:348-372 | server and object after a deletion pass, with the exchanged arguments of the not-found test and with cleared IDs lost when the object update reads the status back |
| PolicySync.PolicyReconciler.Reconcile | internal/controller/ozpolicy_controller.go:192-263 | server and cluster after a whole pass; status is written only without error |
| PolicySettling.CleanPass | internal/controller/ozpolicy_controller.go:192-263 | a pass without failures ends without error, persists what its sync reached, and merges the same input next time |
| PolicySettling.TwoPassesSettle | internal/controller/ozpolicy_controller.go:266-346 | after two clean passes in any map orders each protocol is recorded with exactly the desired content or not at all, other remote policies are untouched, and vanished IDs are replaced or cleared |
| PolicyLeaks.PassLeaks | internal/controller/ozpolicy_controller.go:210-229 | a pass without error leaves no remote policy unnamed; a failing one leaves just what it created: at most two, at most one unless the status write fails |
| PolicyLeaks.TwoLeakExactlyWhen | internal/controller/ozpolicy_controller.go:210-229 | two are leaked if and only if both protocols are wanted and unrecorded, both creations succeed and the status write fails |
| PolicyFailures.PassFailsExactlyWhen | internal/controller/ozpolicy_controller.go:192-263 | a pass over a live policy errs if and only if a read or the status write fails or a protocol is in trouble, judged by the state before: the one call it needs fails, or its recorded remote policy is gone and the answer is not understood |
| PolicyFailures.SyncFailsExactlyWhen | internal/controller/ozpolicy_controller.go:266-346 | the same for the loop in either map order, and it asks to run again if and only if it finds the second policy gone, or the first and attempts no update after |
| PolicyFailures.DeletionFailsExactlyWhen | internal/controller/ozpolicy_controller.go:348-372 | the same for a deletion pass; an object that stays for other finalizers has lost its IDs if and only if it did not carry the cleanup finalizer |
| PolicyRuns.RunLeaks | internal/controller/ozpolicy_controller.go:210-229 | over any run of passes and deletion passes with everybody else acting in between, the unnamed remote policies that are neither others' nor there from the start, nor of an object that went without deletion pass, are at most one per failed pass, two if its status write failed |
| PolicyLeaks.DeletionIsSafe | internal/controller/ozpolicy_controller.go:348-372 | the finalizer goes only once no recorded remote policy is live, and nothing else is deleted |
| PolicyLeaks.SwappedContains | internal/controller/ozpolicy_controller.go:351 | a message the sync path recognises is recognised by the deletion path if and only if it is exactly "not found" |
| PolicyRuns.DeletionProgress | internal/controller/ozpolicy_controller.go:348-372 | with no failing call, a deletion pass errs if and only if a recorded policy has already vanished and the message is not exactly "not found", and then changes no object; otherwise just the cleanup finalizer goes, and the object with it if it was the only one |
| PolicyRuns.DeletionStuck | internal/controller/ozpolicy_controller.go:348-372 | it then errs on every clean retry, whatever others do in between |
| PolicyLeaks.RequeueOverwritten | internal/controller/ozpolicy_controller.go:326 | the requeue request is lost if and only if the second protocol updates a live policy |
| PolicyRefinement.VisitRegisters | internal/controller/ozresource_controller.go:342-372 | a resource pass keeps every registration, and registers its own resource if it succeeds |
| PolicyRefinement.RunRegisters | internal/controller/ozresource_controller.go:342-372 | over any events, failing passes and edits of others included, a living resource stays registered since its last successful pass |
| PolicyMeaning.InputIsUnion | internal/controller/ozpolicy_controller.go:67-113 | merged ports are the sorted union of the spec ports of the chosen resources, destinations the union of their recorded groups and the IDs of the policy's own |
| PolicyMeaning.TwoPassesImplement | internal/controller/ozpolicy_controller.go:266-346 | two clean passes leave for each protocol one recorded remote policy with that union of ports followed by the policy's own, its name, description, direction, resolved sources and those destinations, or none exactly when one of these is empty or the protocol is not allowed |
| PolicyMeaning.GeneratedChooses | internal/controller/ozpolicy_controller.go:78-95 | a pass over a policy generated for a resource chooses exactly its live managed resources whose status lists the short name, if the suffix occurs nowhere earlier in the object's name |
| PolicyMeaning.GeneratedImplements | internal/controller/ozpolicy_controller.go:192-263 | so two clean passes over it leave the union of the ports and groups of those resources |
| PolicyRefinement.RegisteredAreChosen | internal/controller/ozpolicy_controller.go:78-95 | once all are registered, a hand-written policy chooses exactly the live resources whose spec names it |
| PolicyRefinement.EndToEnd | internal/controller/ozpolicy_controller.go:192-263 | two clean passes of a hand-written policy implement, in the same sense, the live resources whose spec names it, from any world after any run of resource passes, resource deletions, passes of any policies and user edits, once each living resource had a success after its last edit; no other remote policy is created or removed by the two passes |
| GroupOwners.Namespace.ReleaseGroups | internal/controller/ozresource_controller.go:480-509 | the groups after giving up those no longer wanted, for every list order and failing call |
| GroupOwners.Namespace.IndexOf | internal/controller/ozresource_controller.go:620-630 | the first position of the reference; cutting there removes the first occurrence |
| GroupOwners.Namespace.HandleGroups | internal/controller/ozresource_controller.go:472-588 | groups and verdict of the whole step, with the failed list that lets the pass go on without IDs; `GroupOutcomes` says whose IDs these are |
| GroupOwners.Namespace.Delete | internal/controller/ozresource_controller.go:615-646 | groups after the group part of a deletion |
| GroupOwners.GroupsOwn | internal/controller/ozresource_controller.go:480-575 | whatever fails, a pass moves only its own reference and takes the cleanup finalizer only from a group it solely owned and no longer lists |
| GroupOwners.DeletionOwn | internal/controller/ozresource_controller.go:615-646 | the same for deletion |
| GroupOutcomes.GroupsOutcome | internal/controller/ozresource_controller.go:472-588 | a pass that goes on and whose list and releases succeed owns every listed group, goes on with that group's ID at each position, and has let go of every group it owned and neither lists nor uses: its reference if shared, the cleanup finalizer if sole, and nothing else |
| GroupOutcomes.IdsOutcome | internal/controller/ozresource_controller.go:511-588 | whatever fails, the IDs a pass goes on with are those of the listed groups in order, or none at all, and that only if the list or a release failed |
| GroupOutcomes.ProceedsExactlyWhen | internal/controller/ozresource_controller.go:472-588 | a pass whose list or releases fail goes on without IDs; any other goes on if and only if every listed group can be read, has its ID and lists the resource or can be made to |
| GroupOutcomes.CleanProceedsExactlyWhen | internal/controller/ozresource_controller.go:472-588 | with no call failing, if and only if every listed group was there with its ID |
| GroupOutcomes.ObjectNameAt | internal/controller/ozresource_controller.go:515-516 | position by position the object name has dashes for blanks, small letters for capitals, and the rest unchanged |
| GroupOutcomes.MadeGroups | internal/controller/ozresource_controller.go:520-548 | every group a pass makes, whatever fails, has the object name of a listed group, wants that very name, is owned by the resource and carries both finalizers |
| GroupOutcomes.ReleaseErrsExactlyWhen | internal/controller/ozresource_controller.go:480-509 | a release walk fails if and only if the update of a group it owns and does not keep fails |
| GroupOutcomes.DeletionOutcome | internal/controller/ozresource_controller.go:615-646 | the group part of a deletion fails if and only if the list or such an update does; otherwise every owned group is let go of and no other changed |
| GroupOwners.RunKeepsOwners | internal/controller/ozresource_controller.go:480-509 | over any interleaving of passes of any resources, owner lists never repeat a UID and operator-made groups always have an owner |
| GroupOwners.GuardGoesWithSoleOwner | internal/controller/ozresource_controller.go:622-646 | over any run the cleanup finalizer of a group that still exists is only ever removed by a pass of its sole owner |
| ExemptList.ExemptSettings.HandleAdmissionExempt | internal/controller/ozroutingpeer_controller.go:130-183 | the account, the error and the number of updates for every flag, list and failure |
| ExemptList.ExemptSettings.RemoveAdmissionExempt | internal/controller/ozroutingpeer_controller.go:190-222 | the same for the removal on deletion |
| ExemptList.EditsConserve | internal/controller/ozroutingpeer_controller.go:130-222 | over any interleaving of edits the unmanaged groups keep order and number, and each group is present exactly as its last edit asked |
| ExemptList.NewcomersLast | internal/controller/ozroutingpeer_controller.go:130-222 | over any run the entries that stayed come first, in their order, and only managed groups stand after them |
| ExemptList.DesiredStateIsQuiet | internal/controller/ozroutingpeer_controller.go:169-172 | an edit changes nothing if and only if its flag is the last one applied |
| RoutingPeer.RoutingPeerReconciler.HandleNetwork | internal/controller/ozroutingpeer_controller.go:626-666 | stores and working status after adopting or creating the network; going on implies a recorded network, a newly recorded one has the wanted name, and network names stay unique |
| RoutingPeer.RoutingPeerReconciler.HandleGroup | internal/controller/ozroutingpeer_controller.go:568-623 | stores after waiting for or creating the group; going on implies a group with an ID |
| RoutingPeer.RoutingPeerReconciler.HandleSetupKey | internal/controller/ozroutingpeer_controller.go:442-565 | stores and working status for each state of key and Secret and each failing call; a key it makes is unrevoked, with the plaintext the server gives and the given group ID as its group |
| RoutingPeer.RoutingPeerReconciler.HandleRouter | internal/controller/ozroutingpeer_controller.go:389-439 | stores and working status after adopting, creating or correcting the router; going on implies a recorded router and one serving the network, no network gets a second router, and with a router recorded before the one of the network is enabled, masquerading, of metric 9999 and of just this group |
| RoutingPeer.RoutingPeerReconciler.Teardown | internal/controller/ozroutingpeer_controller.go:668-766 | the deletion stages in order, up to the first that fails; `Teardown` and `PeerOutcomes` say what they reach |
| RoutingPeer.RoutingPeerReconciler.Reconcile | internal/controller/ozroutingpeer_controller.go:40-120 | the whole pass with its deferred status write, which also happens on error |
| RoutingPeerSettling.NeverDuplicated | internal/controller/ozroutingpeer_controller.go:389-439 | over every run of passes of any routing peers, whatever fails, network names stay unique and no network gets a second router, if nobody else makes any |
| RoutingPeerSettling.SettledIsQuiet | internal/controller/ozroutingpeer_controller.go:40-120 | a pass over a peer that has network, router, key, exempt entry and deployment as wanted changes nothing, whatever fails |
| RoutingPeerSettling.ThreePassesSettle | internal/controller/ozroutingpeer_controller.go:40-120 | three clean passes reach that state if and only if the status names no network the server has lost; further passes are quiet, the key converges unless it was stale, and a key made on the way has the router's only peer group as its group |
| RoutingPeerSettling.RecordedNetworkStays | internal/controller/ozroutingpeer_controller.go:626-666 | no pass over a live peer changes the recorded network, live or not |
| RoutingPeerKeys.PassLeaksExactlyWhen | internal/controller/ozroutingpeer_controller.go:54-73 | a pass leaves a key unnamed if and only if it created one and the status write failed |
| RoutingPeerKeys.EnvironmentLeaksExactlyWhen | internal/controller/ozroutingpeer_controller.go:75-80 | between passes a key loses its name if and only if its peer, having no finalizers, goes while the key is live |
| RoutingPeerKeys.RunsLeakNothing | internal/controller/ozroutingpeer_controller.go:442-565 | over every run in which any call but the status write may fail, the live keys are at most the one the persisted status names and those of peers that went without a deletion pass |
| RoutingPeerKeys.FinalizedPeersLeakNothing | internal/controller/ozroutingpeer_controller.go:442-565 | at most the one named key is live if no peer goes that way |
| RoutingPeerKeys.TwoPassesConverge | internal/controller/ozroutingpeer_controller.go:442-565 | two clean passes reach a recorded unrevoked key whose plaintext is the Secret entry if and only if the start is not stale, and a third then changes nothing |
| RoutingPeerKeys.StaleStays | internal/controller/ozroutingpeer_controller.go:526-565 | no pass, whatever fails or succeeds, changes a stale entry |
| RoutingPeerKeys.FailedUpdateGoesStale | internal/controller/ozroutingpeer_controller.go:442-565 | one failed Secret update after a key was replaced makes the entry stale |
| RoutingPeerKeys.RunsConverge | internal/controller/ozroutingpeer_controller.go:442-565 | in every run whose Secret reads and writes succeed, with the environment free to revoke, delete keys and drop the Secret, two clean passes converge |
| RoutingPeerKeys.CreatedKeyServes | internal/controller/ozroutingpeer_controller.go:456-465 | a key that a pass creates, whatever fails, carries the ID of the peer's group object at that moment |
| RoutingPeerKeys.RunKeysServe | internal/controller/ozroutingpeer_controller.go:442-565 | over every run in which that ID does not change, every key made in the run carries it |
| RoutingPeerKeys.MadeGroup | internal/controller/ozroutingpeer_controller.go:568-623 | the group object a pass makes has the name of the network, both finalizers and no ID |
| Teardown.ResourceReconciler.ReconcileDelete | internal/controller/ozresource_controller.go:590-656 | server and objects after deleting an OZResource, for every failing call |
| Teardown.ResourceReconciler.HandleResource | internal/controller/ozresource_controller.go:408-469 | a created, confirmed or forgotten network resource, and whether the status is to be written |
| Teardown.ResourceReconciler.Reconcile | internal/controller/ozresource_controller.go:48-135 | the network-resource side of a whole OZResource pass |
| Teardown.NetworkGoesLast | internal/controller/ozroutingpeer_controller.go:668-766 | a pass deletes only the recorded network of a peer being deleted, and only while no OZResource exists |
| Teardown.FinalizersGoLast | internal/controller/ozroutingpeer_controller.go:668-766 | when the peer goes, its key, deployment and network are gone, no OZResource existed, and its group, if still there, has lost the finalizer and, if it has its ID, the exempt entry |
| Teardown.ExemptEntryGoesExactlyWhen | internal/controller/ozroutingpeer_controller.go:745-749 | the last pass takes out of the exempt list the ID its group object has then, and nothing else |
| Teardown.ExemptEntrySurvives | internal/controller/ozroutingpeer_controller.go:730-749 | the failing input: one failed read of the account after the group lost its finalizer, and the entry stays when the peer is gone |
| Teardown.TeardownCompletesExactlyWhen | internal/controller/ozroutingpeer_controller.go:722 | a clean deletion pass completes if and only if the status names no network or no OZResource exists |
| Teardown.PassSparesOthers | internal/controller/ozroutingpeer_controller.go:703-720 | whatever fails, a pass leaves every OZResource alone but those of the network that a peer being deleted records |
| Teardown.TeardownReachesOwn | internal/controller/ozroutingpeer_controller.go:703-720 | a clean deletion pass leaves no unguarded OZResource of the recorded network, and marks every guarded one for deletion without changing it otherwise |
| PeerOutcomes.DeploymentAppliedExactlyWhen | internal/controller/ozroutingpeer_controller.go:81-119 | whatever fails, routers are rolled out if and only if network, group ID, setup key, router and exempt entry are in place or every call that puts them there succeeds |
| PeerOutcomes.PeerAfterTeardown | internal/controller/ozroutingpeer_controller.go:668-766 | whatever fails, a deleted peer goes if and only if every stage passes, no network stays recorded and the last update succeeds; otherwise its status says exactly how far the pass got, unless that update or the status write fails |
| PeerOutcomes.GroupAfterTeardown | internal/controller/ozroutingpeer_controller.go:735-743 | whatever fails, its group loses the routing peer's finalizer, and nothing else, if and only if every stage before passes and the update succeeds |
| Teardown.PeerKeeps | internal/controller/ozroutingpeer_controller.go:40-120 | no routing-peer pass drops an OZResource that records a network resource |
| Teardown.ObjectKeeps | internal/controller/ozresource_controller.go:590-656 | no OZResource pass drops its record before its network resource is gone; every live one stays recorded unless a status write fails |
| Teardown.ResourceGoesExactlyWhen | internal/controller/ozresource_controller.go:590-656 | whatever fails, an OZResource being deleted goes if and only if all its calls succeed, and its network resource if and only if those up to its own deletion do |
| Teardown.ResourceMadeExactlyWhen | internal/controller/ozresource_controller.go:48-135 | whatever fails, a network resource is made only for a guarded OZResource that records none, and recorded if and only if the status write succeeds too |
| Teardown.CleanResourcePass | internal/controller/ozresource_controller.go:408-469 | a clean pass creates a missing network resource in the network of the spec and records it, forgets one that has vanished, and leaves a live one alone |
| Teardown.TwoResourcePasses | internal/controller/ozresource_controller.go:408-469 | two clean passes leave a live recorded network resource |
| Teardown.NetworksOutliveResources | internal/controller/ozroutingpeer_controller.go:668-766 | over every run of both controllers and user actions, a network is deleted only when no OZResource exists and, if no status write failed, no network resource is live |
| GroupRefs.GetGroupIds | internal/openzroutil/group.go:14-48 | IDs exactly when every set reference resolves |
| GroupRefs.ResolutionIsPointwise | internal/openzroutil/group.go:14-48 | one ID per set reference, in order, each the target of its reference |
| GroupRefs.ResolvesExactlyWhen | internal/openzroutil/group.go:14-48 | a resolution succeeds if and only if every set reference can be looked up and stands for some group |
| SetupKeys.SetupKeyReconciler.CheckKey | internal/controller/setupkey_controller.go:66-111 | up to date, outdated or failed, for every key state, Secret and failing call; groups are updated only when up to date |
| SetupKeys.SetupKeyReconciler.Rotate | internal/controller/setupkey_controller.go:118-170 | create, record, hand out, delete the old key, in this order up to the first failure |
| SetupKeys.SetupKeyReconciler.Reconcile | internal/controller/setupkey_controller.go:38-170 | the whole pass, deletion included |
| SetupKeys.PassKeepsHandedOut | internal/controller/setupkey_controller.go:118-170 | a pass cut anywhere keeps the Secret's key alive |
| SetupKeys.MakeBeforeBreak | internal/controller/setupkey_controller.go:38-170 | over any number of cut and resumed passes with no outside deletion of keys, the key in the Secret always exists on the server |
| SetupKeys.CleanPassOutcome | internal/controller/setupkey_controller.go:66-141 | a clean pass leaves a valid recorded key with the wanted groups, handed out up to the compared prefix: the recorded one if it is valid and starts like the Secret entry, otherwise a new one in its place; unless the key is overused or a string is too short to compare, and then nothing but the finalizer changes |
| SetupKeys.DeletionOutcome | internal/controller/setupkey_controller.go:172-186 | a deletion pass lets the object go if and only if its calls succeed; the recorded key is gone by then and no other touched |
| SetupKeys.RotationOrphansExactlyWhen | internal/controller/setupkey_controller.go:118-170 | a pass leaves one more key behind if and only if it rotates and the new key is not recorded or a live old one not deleted, and never more than one |
| SetupKeys.RunOrphans | internal/controller/setupkey_controller.go:38-186 | over any run with others making and deleting keys, the unnamed keys that are neither theirs nor there from the start, nor of an object that went, are at most as many as the passes that lost one |
| RouterTrio.RouterControllers.SyncNetwork | internal/controller/networkrouter_controller.go:71-92 | update-or-create of the network |
| RouterTrio.RouterControllers.SyncPeer | internal/controller/networkrouter_controller.go:157-181 | update-or-create of the routing peer in its network |
| RouterTrio.RouterControllers.DeleteRouter | internal/controller/networkrouter_controller.go:293-313 | routing peer, then network, then finalizer, up to the first failure |
| RouterTrio.RouterControllers.ReconcileRouter | internal/controller/networkrouter_controller.go:46-186 | the staged pass up to the routing peer, for every failing call |
| RouterTrio.RouterControllers.ReconcileGroup | internal/controller/group_controller.go:27-91 | update-or-create of the group and its deletion |
| RouterTrio.RouterStep | internal/controller/networkrouter_controller.go:46-186 | a clean router pass keeps all references consistent and records every stage whose predecessor is recorded |
| RouterTrio.GroupStep | internal/controller/group_controller.go:45-75 | a clean group pass keeps consistency and records a group |
| RouterTrio.KeyStep | internal/controller/setupkey_controller.go:54-141 | a clean key pass keeps consistency and records a key |
| RouterTrio.RoundMakesProgress | internal/controller/networkrouter_controller.go:71-186 | each clean round lowers the number of unset stages while there is one |
| RouterTrio.ThirdRouterPassCompletes | internal/controller/networkrouter_controller.go:71-186 | by the third router pass all four stages are recorded, the server holds exactly one of each, and router group, key group and recorded group agree |
| RouterTrio.AnyOrderMakesProgress | internal/controller/networkrouter_controller.go:71-186 | the same progress whatever the order of the controllers in a round |
| RouterTrio.SixRoundsComplete | internal/controller/networkrouter_controller.go:71-186 | six clean rounds in any orders record and apply everything from any consistent state |
| RouterTrio.GroupLossRecovers | internal/controller/group_controller.go:45-75 | after the remote group is deleted, two clean rounds agree on one new group and keep key, router and network |
| RouterTrio.NetworkLossRecovers | internal/controller/networkrouter_controller.go:71-186 | after the remote network is deleted with its routing peer, one clean round records a new network, renames the group after it, on the server too, and makes a routing peer of the same group in it |
| RouterTrio.PeersStayInNetwork | internal/controller/networkrouter_controller.go:157-181 | whatever fails, no routing peer changes its network, one goes only as the recorded peer of the recorded network of a router being deleted, and one is made only for the recorded network and group |
| RouterLeaks.RouterLeaksExactlyWhen | internal/controller/networkrouter_controller.go:71-186 | a router pass leaks if and only if it creates a network or routing peer and the patch that records it fails |
| RouterLeaks.RouterDeletion | internal/controller/networkrouter_controller.go:293-313 | the network goes only after its routing peer, and the object goes if and only if every call succeeds, both being gone by then |
| RouterLeaks.RouterRunsLeakNothing | internal/controller/networkrouter_controller.go:46-186 | over every run with working patches all rows stay named, and none is left once the router is gone |
| RouterLeaks.GroupLeaksExactlyWhen | internal/controller/group_controller.go:27-91 | the same for the Group controller: when a pass leaks, when deletion completes, and what is gone then |
| GroupAdoption.GroupReconciler.FindGroup | internal/controller/ozgroup_controller.go:88-93 | the last listed group of the name, or none |
| GroupAdoption.LastNamedIsLast | internal/controller/ozgroup_controller.go:88-93 | no group after the one found has the name |
| GroupAdoption.GroupReconciler.SyncGroup | internal/controller/ozgroup_controller.go:81-130 | create, adopt, forget or take the changed ID, for every failing call |
| GroupAdoption.GroupReconciler.FindSharer | internal/controller/ozgroup_controller.go:157-174 | true exactly when another OZGroup records the same ID |
| GroupAdoption.GroupReconciler.HandleDelete | internal/controller/ozgroup_controller.go:132-190 | server and objects after a deletion pass, for each answer of the server, within and after the minute |
| GroupAdoption.NamesStayUnique | internal/controller/ozgroup_controller.go:81-130 | remote group names stay unique over any interleaving of passes of any OZGroups, whatever fails, if nobody else creates groups |
| GroupAdoption.RecordsExactlyWhen | internal/controller/ozgroup_controller.go:81-130 | whatever fails, a pass makes a remote group if and only if it finds none of the name, records none and the call succeeds, and records what it found, made or forgot if and only if its status write succeeds |
| GroupAdoption.TwoPassesHold | internal/controller/ozgroup_controller.go:81-130 | after two clean passes of its own an OZGroup holds the live group of its name, whatever runs or fails in between, while none of that name is lost |
| GroupAdoption.NamesakesAgree | internal/controller/ozgroup_controller.go:81-130 | all OZGroups of one name then hold the same live ID |
| GroupAdoption.FinalizerGoesExactlyWhen | internal/controller/ozgroup_controller.go:132-190 | a deletion pass gives up just this finalizer if and only if the object can be written and no ID is recorded, the server deleted or does not know the group, or it is linked and 60 seconds have passed or another OZGroup is seen to record it |
| GroupAdoption.DeletesExactlyWhen | internal/controller/ozgroup_controller.go:144-149 | a remote group is deleted if and only if the OZGroup being deleted records it and it is not linked, shared or not |
| GroupAdoption.NamesakeRecovers | internal/controller/ozgroup_controller.go:81-130 | the surviving namesake gets a fresh group in two clean passes |
| NetworkResources.NetworkResourceReconciler.ZoneByName | internal/openzroutil/zone.go:12-24 | the first zone of the name |
| NetworkResources.NetworkResourceReconciler.EnsureResource | internal/controller/networkresource_controller.go:124-147 | update-or-create of the network resource in the router's network |
| NetworkResources.NetworkResourceReconciler.SyncRecord | internal/controller/networkresource_controller.go:158-211 | zone lookup, removal of the record in a former zone, update-or-create of the record, final patch |
| NetworkResources.NetworkResourceReconciler.Delete | internal/controller/networkresource_controller.go:214-234 | resource, then record, then finalizer, up to the first failure |
| NetworkResources.NetworkResourceReconciler.Reconcile | internal/controller/networkresource_controller.go:42-212 | the whole pass, for every failing call |
| NetworkResources.PassLeaksExactlyWhen | internal/controller/networkresource_controller.go:123-207 | the exact conditions under which a pass leaves a resource or record no status names |
| NetworkResources.RunsLeakNothing | internal/controller/networkresource_controller.go:123-234 | over every run that spares the two status patches all rows stay named, and none is left once the object is gone |
| NetworkResources.CleanPassExactlyWhen | internal/controller/networkresource_controller.go:123-207 | a clean pass ends with exactly one resource and one record, in the router's network and current zone with the ClusterIP, if and only if no resource is stranded in a former network |
| NetworkResources.UnreadyIsIdle | internal/controller/networkresource_controller.go:54-121 | without a ClusterIP Service, a router with network and routing peer, and resolvable groups a pass changes nothing |
| NetworkResources.RowsStayInPlace | internal/controller/networkresource_controller.go:123-234 | whatever fails, no resource changes its network and no record its zone; only recorded ones go, a resource with its object, a record also once the router names another zone |
| NetworkResources.RunsEndExact | internal/controller/networkresource_controller.go:123-207 | so does the next clean pass after any such run |
| NetworkResources.DeletionExactlyWhen | internal/controller/networkresource_controller.go:214-234 | deletion completes if and only if its calls succeed, and both rows are gone by then |
| ServicePorts.FilterPorts | internal/controller/service_controller.go:239-249 | the filter ports, or an error as soon as one untrimmed piece is no 64-bit number |
| ServicePorts.UnreadableExactlyWhen | internal/controller/service_controller.go:239-249 | the annotations ask for nothing if and only if one piece of the port annotation of an exposed Service is no number |
| ServicePorts.NoNumber | internal/controller/service_controller.go:242 | anything but an optional sign and digits is no number |
| ServicePorts.TooLarge | internal/controller/service_controller.go:242 | neither is what 64 bits cannot hold |
| ServicePorts.SignedParses | internal/controller/service_controller.go:242 | a minus sign negates, down to the least 64-bit number, and a plus sign does nothing |
| ServicePorts.FriendlyNames | internal/controller/service_controller.go:257-266 | the fold of the well-formed pairs, a piece without exactly one colon being skipped |
| ServicePorts.LastPairWins | internal/controller/service_controller.go:257-266 | a policy has a friendly name if and only if some well-formed pair names it, and then that of the last one |
| ServicePorts.ResourceDraft.ApplyPorts | internal/controller/service_controller.go:268-294 | both port lists after the loop are the per-protocol folds of the Service's ports |
| ServicePorts.ResourceDraft.ApplyPolicy | internal/controller/service_controller.go:233-297 | the spec the annotations ask for, or an error exactly when the port annotation cannot be read |
| ServicePorts.WantedFields | internal/controller/service_controller.go:233-297 | field by field what the annotations ask for: name, source groups, and ports that pass the filter or that the Service does not list; without a policy annotation no name and no ports |
| ServicePorts.ExposeService | internal/controller/service_controller.go:161-192 | the OZResource is written exactly when it is new, another field changed or the comparison sees a difference, with what the annotations ask for; otherwise, on unreadable annotations or a failing call it stays |
| ServicePorts.IssuedExactlyWhen | internal/controller/service_controller.go:170-189 | a write is issued if and only if the Service is new or moved, the policy name differs, or ports or source groups differ in length or have a new member |
| ServicePorts.FirstExposure | internal/controller/service_controller.go:161-192 | a first exposure asks for exactly the accepted ports |
| ServicePorts.LaterExposure | internal/controller/service_controller.go:161-192 | a later one starts from the stored spec: ports the Service does not list are kept |
| ServicePorts.ExposedExactlyWhen | api/v1/ozresource_types.go:33-42 | without error the stored spec is what the annotations ask for if and only if an update is issued or friendly names and source groups agree already |
| ServicePorts.FriendlyNameLost | internal/controller/service_controller.go:183 | the failing input: a friendly name added to an exposed Service |
| ServicePorts.SourceGroupsLost | api/v1/ozresource_types.go:33-42 | the failing input: two source groups becoming one of them twice |
| ServicePorts.VisitsMembers | internal/controller/service_controller.go:268-294 | the result is (old minus rejected Service ports) plus accepted ones |
| ServicePorts.VisitsDistinct | internal/controller/service_controller.go:268-294 | lists without repeats stay so |
| ServicePorts.VisitsExtends | internal/controller/service_controller.go:268-294 | survivors keep their order, and exactly the missing accepted ports are appended, once each |
| ServicePorts.OrderIrrelevant | internal/controller/service_controller.go:268-294 | the same set for any order or repetition of the Service's ports |
| ServicePorts.SecondPassIsQuiet | internal/controller/service_controller.go:170-189 | a second pass over the same Service asks for the same sequences and issues no update |
| ServicePorts.AnnotationRoundTrip | internal/controller/service_controller.go:239-249 | decimal ports joined by commas are read back |
| ServicePorts.FilterMatchesModulo | internal/controller/service_controller.go:247 | a filter number matches a port if and only if their low 32 bits agree |
| SecretIndex.SetupKeyIndex.Forget | internal/controller/ozsetupkey_controller.go:71-77 | one entry of the key is gone, whichever the iteration met first, or there was none |
| SecretIndex.SetupKeyIndex.Reconcile | internal/controller/ozsetupkey_controller.go:45-78 | the index after a pass; unreadable or invalid keys leave it alone |
| SecretIndex.PassIndexes | internal/controller/ozsetupkey_controller.go:45-78 | a readable, valid key makes its Secret, in its own namespace, stand for it and changes no other remaining entry; any other leaves the index alone |
| SecretIndex.SetupKeyIndex.Requests | internal/controller/ozsetupkey_controller.go:141-152 | the request of the key the Secret stands for, if any |
| SecretIndex.IndexExactly | internal/controller/ozsetupkey_controller.go:71-78 | after any passes s stands for k if and only if k was the last to name s and s is the last Secret k named |
| SecretIndex.ValuesDistinct | internal/controller/ozsetupkey_controller.go:71-78 | each setup key occurs at most once as a value |
| SecretIndex.LookupExact | internal/controller/ozsetupkey_controller.go:141-152 | if no two keys ever name the same Secret, the lookup returns exactly the referencing key |
| SecretIndex.LookupMissesExactlyWhen | internal/controller/ozsetupkey_controller.go:141-152 | in general a referencing key is missed if and only if it was not the last to name its Secret |
| SecretIndex.SharedSecretForgotten | internal/controller/ozsetupkey_controller.go:71-78 | a shared Secret leaves the index when the second key moves on |

## Left out

- The HTTP clients, the Kubernetes API server, work queues and the patch library appear only as calls that act in full or fail without effect; calls that act and report failure, and a patch whose spec and status halves fail separately, are not modelled.
- A pass is one step of a run: passes of different objects of one kind are not interleaved call by call, as each controller has one worker.
- Status conditions, timestamps, labels, logging, requeue delays and the error text of a pass; whether a status write is skipped because nothing changed (the persisted status is the same either way).
- Deployments and pods are one bit or absent; strategic merge patches, security contexts and labels are library merging.
- HTTPRoute, TCPRoute, Gateway and GatewayClass controllers, the pod and group webhooks, Helm charts, CRD schemas and command-line flags.
- The text of server errors other than the not-found message of policies: failing calls are taken to carry a text that matches none of the substring tests, and not-found answers elsewhere are recognised.
- handleGroupUpdate (internal/controller/ozresource_controller.go:375-405) and the fields of a network resource other than its network.
- One OZResource pass is not a single function: its group step, network-resource step and policy step are separate modules, joined by the verdict of the group step.
- Progress of OZPolicy deletion and group recovery of OZRoutingPeers after a remote group ID change, which the code does not provide.
- PolicyRefinement.EndToEnd: is about hand-written policies. For a generated one `PolicyMeaning.GeneratedImplements` says the same of its managed resources when its name strips back, without the run that registers them. The policy's own spec is fixed during the run.
- PolicySync.PolicyReconciler.SyncPolicy: ports are integers, not decimal strings, and managed-list entries are keys, which `KeyNames.ParseUndoesPrint` justifies; an entry without a slash makes the code panic and does not occur.
- PolicySync.PolicyReconciler.GetResources: two entries of one key in a managed list fail or succeed together.
- Slices.SplitTrim: separators are one character, as in every caller.
- GroupOwners.Namespace.HandleGroups: lower-casing covers ASCII letters.
- RoutingPeer.RoutingPeerReconciler.Reconcile: the returned error is not modelled, since the status-write result replaces it.
- RouterTrio.RouterStep: the group's name stands for the network ID it is derived from.
- NetworkResources.NetworkResourceReconciler.Reconcile: record lifetime, description and name of the network resource are left out; the tables hold the rows made for one object.
- ServicePorts.ExposeService: finalizers of the Service and the default routing peer are left out; name, network, address and groups of the spec are one flag that says whether they changed.
- SecretIndex.SetupKeyIndex.Reconcile: the status reasons and the UUID syntax of the key are left out.
