# Verification model of the PostgreSQL multi-cluster operator

This Dafny project models the operator that runs one PostgreSQL topology over several Kubernetes
workload clusters, one primary and any number of standbys, and moves the primary between them. It
proves what every interleaving of passes, faults and spec edits keeps, what a failover leaves behind
however often it is interrupted, and what a quiet system converges to.

## How it is put together

* **Data.** `Api` holds the resource (spec, status, conditions), `Kube` the durable store: the
  resource and, per target, one `postgresql` object and one site (Services, Endpoints, Secrets, nodes).
  `Json` has recursive JSON and the merge patch of RFC 7396, section 2.
* **Remote calls.** `Remote.Fleet` is the store as the operator reaches it. A write needs a client for its
  cluster, and succeeds, fails without effect, or fails after taking effect; a user may edit the spec
  around every call. The class records for which clusters a client was obtained and for which not, how
  many calls reported an error, and every state the store goes through; its invariant says that this
  history is a run of `Machine`, and that each status in it is well formed.
* **Machine.** `Machine` is the operator as a transition system over the store, with the one-writer
  invariant proved for every run. `EditGuard` proves the guards put on spec edits exact; `Witnesses` gives,
  for each, a run from the start with two writers when it is dropped.
* **Passes.** `Operator` and `Controller` are the reconcile loop, `NormalPass`, `Reconciling` and
  `Selection` its steps, `Failover` and `FailoverPass` the failover sequence and the pass around it, all
  as methods over `Fleet` and over `Resource.PostgresMC`, the copy a pass works on. `StatusWrites` gives
  each status the operator writes as a function of the status before and of what the pass saw.
  `Resumption` is failover passes tried again, `Calls` calls of `Reconcile` one after the other, `Streaks` what
  the failure count says over them, `Announced` what FailoverInProgress does.
* **Components.** `Builder`, `CrossCluster`, `Replication`, `StatusEndpoints` with `Text`, `Credentials`,
  `Registry`, `Conditions`, `AutoPromotion`.
* **Consequences.** `Readiness` (Ready is earned in the same pass), `CredentialFlow` (which credentials are asked
  for and where they end), `Topology` (the star), `Handover` (a failover goes where the last pass found its
  target), `Steady` (a clean pass is a function, and a second one changes nothing), `Convergence` (calls without
  a reported error get there and stay), `CleanWitness` (concrete calls that meet the hypotheses).

"Writable" means that a cluster's object exists without `spec.standby`. Every lemma is marked
`{:induction false}`: automatic induction adds hypotheses these proofs do not use.

## What is asked of the environment

`Machine.EditAllowed` and `Machine.Admitted` are the only restrictions on spec edits:

* a valid spec names no other primary than a cluster that is writable but not recorded, nor than the one the
  pass in flight may make so. Between passes this can be read off the store. So a failover that has
  written nothing may be cancelled or redirected as soon as its pass is over;
* an invalid spec does not turn a failover in flight, which reads the spec again without validating it, away from a
  cluster that is writable but not recorded;
* while no primary is recorded, automatic failover waits for at least two passes;
* cluster names are not empty, and a cluster's site exists before it is named.

The first three are exact (`EditGuard.EditGuardIsExact`): an edit they refuse is one after which the machine can
reach two writers, given a second cluster for the third, and an edit they admit is not. The methods over
`Remote.Fleet` ask a little more: under a failover in flight the spec stays valid. The machine leaves open what can
block a failover (no host, a blob that does not parse, the recorded primary gone from the spec); in the code such a
block only delays it.

At the start (`Machine.Init`) no primary is recorded, the failure count is zero, and nothing is writable but,
perhaps, the spec's own primary.

## What the proofs found

* **Threshold 1.** With `primaryUnreachableThreshold: 1` automatic failover can fire before any primary
  was recorded, over an object already applied, and two clusters become writable
  (`Witnesses.ThresholdGuardIsNeeded`). Once a primary is recorded it is harmless.
* **Missing reset.** A rewrite does not reset the failure counter when the write of the reset, whose error is
  ignored, is lost, and when the role patch takes effect but reports an error, since the pass then ends there.
  Then, and only then, the next rewrite need not be a threshold away (`AutoPromotion.SpacingIsExact`).
* **Count carried over.** A failover never resets the failure counter, so the new primary starts with the misses of the
  old one. Recorded at one short of the threshold, it is left again at its first miss
  (`Witnesses.AFailoverCarriesItsCount`, `Streaks.CarriedCountFiresEarly`). "Unreachable for N consecutive passes" is
  true of the primary moved away from exactly when the failover that recorded it did so at a zero count
  (`Streaks.StreaksAreExact`).
* **Phase under automatic failover.** A pass that rewrites the roles, or finds no standby to choose, stores its marks
  but not a new phase: Ready stands, the primary down, if it stood before (`Calls.TakenOverKeepsThePhase`, and an input
  in `Streaks.AStaleReady`). Above threshold 1 only a count carried over leads there (`Streaks.TakenOverReadyWasCarried`).
* **Lingering FailoverInProgress.** Only a recorded failover clears this condition. A failover announced and then
  cancelled, the role given back in the spec, leaves it true for good, beside phase Ready
  (`Announced.WhenItLingers`, `Announced.ItLingersForGood`).
* **Repointing.** A failover points the other standbys at the alias in the new primary's namespace, not
  in their own. The two agree exactly when the namespaces do (`Topology.RunLeavesAlmostAStar`); the next
  normal pass puts it right.
* **Alias kind.** When the primary's host changes from a name to an address or back, the alias Service
  keeps its type and resolution stays wrong (`CrossCluster.AliasResolvesToHost`, both directions). For a host name a
  port that changes alone is not written to the alias Service either; the standby's own object has it.
* **Service type.** When the replication Service is switched between NodePort and LoadBalancer, the existing
  Service keeps its type and the address returned need not be served (`Replication.AddressIsServed`).
* **External port.** `externalPort` is documented as the port standbys use. It counts only while no endpoint is
  stored, and never in the steady state (`StatusEndpoints.ExternalPortIsNoOverride`).
* **Recorded primary dropped from the spec.** The failover then demotes through a client it never got: a panic,
  recovered as an error, before anything is written. It is the same on every pass until the cluster is back
  in the spec (`Failover.Blocked`, `FailoverPass.RunPlan`).
* **Automatic failover needs the old primary.** The failover that follows a rewrite needs a client for
  every cluster, the unreachable primary included; until it is back nothing is promoted
  (`FailoverPass.RunPlan`).
* **Credential roles.** A comment speaks of three credential Secrets; the code copies two.

## Model

| member | source | states |
|---|---|---|
| Machine.RunIsSafe | internal/controller/postgresmc_controller.go:94-301 | Over any number of passes, faults, retries and allowed spec edits at most one cluster is writable in every state; under a valid spec it is the recorded primary or the spec's; and a failover's target is never writable while the old primary still is |
| Machine.StepKeeps | internal/controller/postgresmc_controller.go:94-301 | The inductive invariant behind it: at most one writer, and a valid spec names every cluster that is writable unrecorded or that the pass in flight may make so. Every step keeps it |
| Machine.RewriteLeadsToFailover | internal/controller/postgresmc_controller.go:104-106 | After automatic failover rewrote the roles, the next pass on that spec is the failover to the chosen cluster |
| EditGuard.EditGuardIsExact | internal/controller/postgresmc_controller.go:94-301 | From any state a run can be in, at any moment of any pass, an edit to a valid spec can lead to two writers if and only if it names another primary than a cluster that is writable unrecorded or that the pass in flight may make so, or, before a primary is recorded and with a second cluster to move to, lets automatic failover fire at the first miss. An edit to an invalid spec can if and only if it turns a failover in flight, which reads the spec again without validating it, away from a cluster that is writable unrecorded |
| EditGuard.BetweenPasses | internal/controller/postgresmc_controller.go:94-106 | Between passes: an edit to primary q can lead to two writers if and only if some cluster other than q is writable and not the recorded primary, which one look at the store tells |
| Machine.RereadKeeps | internal/controller/postgresmc_controller.go:243-276 | A failover pass goes on with the spec as the announcement's patch returned it, unvalidated, and takes the last cluster with the primary role, the recorded one aside, for its new primary: this too keeps the invariant |
| FailoverPass.SplitRebinds | internal/controller/postgresmc_controller.go:249-276 | For any spec, valid or not, the new primary the loop picks is the one the machine rebinds to |
| Witnesses.InstallGuardIsNeeded | internal/controller/postgresmc_controller.go:104-106 | Two writers if a role changes between the first pass and the recording of its primary, since the failover guard is skipped while no primary is recorded |
| Witnesses.FailoverGuardIsNeeded | internal/failover/orchestrator.go:54-99 | Two writers if the roles change again while a failover is in flight |
| Witnesses.ThresholdGuardIsNeeded | internal/controller/postgresmc_controller.go:133-147 | Two writers if automatic failover fires at the first unreachable pass before a primary is recorded, over an object already applied by a pass whose status write was lost |
| Operator.Reconcile | internal/controller/postgresmc_controller.go:54-233 | One call: unread, invalid, failover or normal; says for each what it did to the workload and the status, and that the store only went through states of the machine. A failover runs exactly when a primary is recorded and the spec names another. Without a reported error the call gets through: it reads, a rejection or a takeover is stored, a failover succeeds exactly when it is attempted, and a normal pass ends without error having found every address that is there, applied the primary unless the blob does not parse, copied every credential and reconciled every standby once the primary has an address |
| Operator.Operate | internal/controller/postgresmc_controller.go:54-92 | Any number of calls with users and clusters free to move in between: every state the store ever went through has at most one writer and a well-formed status |
| Operator.EveryStateIsSafe | internal/controller/postgresmc_controller.go:80-297 | In every state reached, also with writes that fail or report a failure after taking effect, phase Ready implies condition Ready=True, FailingOver implies FailoverInProgress=True, and cluster names and condition types are unique |
| Operator.RejectSpec | internal/controller/postgresmc_controller.go:79-89 | An invalid spec touches no cluster and sets phase Failed with Ready=False, or nothing if the write fails |
| Failover.Run | internal/failover/orchestrator.go:54-99 | A plan without a host, with a blob that does not parse, or without the recorded primary fails and writes nothing; any other goes through demotion, promotion, repointing and aliases in that order, and stops at a stage short of the last only if some call reported an error. On success every other cluster streams from the new primary, on the port resolved for it, 5432 if that is 0, with the user's fields in its object |
| Failover.WriteStandby | internal/failover/orchestrator.go:101-107 | Demotion and repointing: one standby object written at its place in the order, or nothing; on success written |
| Failover.PromoteCluster | internal/failover/orchestrator.go:109-134 | The existing object patched, or a new one applied when it cannot be read; only once the old primary is demoted |
| Failover.RepointAll | internal/failover/orchestrator.go:75-81 | Repointing in order, aborting at the first error: a first part of the other standbys is repointed, and nothing else moves |
| Failover.RealiasAll | internal/failover/orchestrator.go:83-96 | Aliases in order, other standbys first, then the old primary: a first part is moved, the next perhaps half made, nothing else |
| Failover.HalfRunsChain | internal/failover/orchestrator.go:54-99 | Interrupted runs of one plan, however many, amount to one interrupted run |
| Failover.ResumedRunIsWhole | internal/failover/orchestrator.go:54-99 | A run resumed after any interruption ends as a whole run from the first state |
| Failover.ResumptionIsInvisible | internal/failover/orchestrator.go:54-134 | Main result on resumption: however often and wherever a failover was interrupted, once it goes through the objects, aliases and Endpoints are those of one uninterrupted run |
| Resumption.RetryPlansTheSame | internal/controller/postgresmc_controller.go:240-276 | With the spec left alone, the pass after a failover that did not record its primary works out the same plan, whether or not the announcement, and with it the relabelled status, was stored |
| Resumption.RetriesEndAsOneRun | internal/controller/postgresmc_controller.go:235-301 | Main result on retries: any number of failover passes that fail, for want of a client or anywhere in the sequence, and a last one that goes through, leave the workload of one uninterrupted run |
| FailoverPass.ResolveAll | internal/controller/postgresmc_controller.go:246-276 | An error if and only if some target has no client; otherwise sorts the targets with the address of each: host override, then stored host; stored port, then external port, then 5432 |
| FailoverPass.SplitIsAPartition | internal/controller/postgresmc_controller.go:268-275 | In a valid spec with another primary recorded the loop puts every target into exactly one of old primary, new primary and others, the others being standbys |
| FailoverPass.PlanIsWellFormed | internal/controller/postgresmc_controller.go:268-283 | The plan's new primary is the spec's primary, its old one the recorded one, and no cluster appears twice |
| FailoverPass.RunPlan | internal/controller/postgresmc_controller.go:245-286 | Anything is attempted if and only if every cluster, the old primary included, has a client and the plan is not blocked; otherwise no cluster changes. What is attempted fails only if some call reported an error |
| FailoverPass.Announce | internal/controller/postgresmc_controller.go:240-243 | The announcement's error is ignored; the spec in flight still names the same new primary |
| FailoverPass.Record | internal/controller/postgresmc_controller.go:288-297 | The end is recorded in one status write, or the status is as before |
| FailoverPass.RunFailover | internal/controller/postgresmc_controller.go:235-301 | A failover pass: its one plan, computed from the spec, the stored endpoints and the recorded primary, up to some stage; exact status afterwards; with all clients, an unblocked plan and no reported error it succeeds |
| FailoverPass.FailoverRecordsItsOutcome | internal/controller/postgresmc_controller.go:288-297 | The new primary is recorded only after a whole run; success means it is, with phase Ready and FailoverInProgress not true; the failure count is never touched |
| Builder.BuildPrimary | internal/zalando/builder.go:34-36 | Fails exactly when the user's blob does not parse as an object; the result is writable, and is the object of its target: named team-target in the target's namespace, with every field of the user's blob but teamId and standby as the user has it, and the spec's team |
| Builder.BuildStandby | internal/zalando/builder.go:38-44 | Fails exactly when the blob does not parse; the result is not writable, streams from the given host and port, and is the object of its target with the user's fields, as for a primary |
| Builder.PromotionBuildsAPrimary | internal/failover/orchestrator.go:109-134 | The JSON Merge Patch (RFC 7396, section 2) sent by promotion turns the object built as a standby, for any host and port, into exactly the object built as a primary, for every blob that is absent or an object |
| Builder.PromotionDropsStandby | internal/failover/orchestrator.go:127-133 | On an object whose spec is an object, promotion removes that one key and nothing else |
| Builder.PromotionIsLocal | internal/failover/orchestrator.go:127-133 | On any JSON, promotion changes no value off the path spec.standby, and leaves none there |
| Json.DeleteTouchesOnlyItsPath | internal/failover/orchestrator.go:127-133 | A merge patch that nulls one path changes the value at no path that is not comparable with it |
| Json.MergeIsPathwise | internal/failover/orchestrator.go:127-133 | The merge of RFC 7396, section 2, path by path: what the patch has and is no object replaces what was there, a null removes it, and off the patch everything is as it was |
| Json.MergeIsIdempotent | internal/failover/orchestrator.go:127-133 | Applying the same merge patch twice is applying it once |
| CrossCluster.EnsurePrimaryAlias | internal/crosscluster/service.go:35-42 | On success the alias is ensured; for an address its Endpoints then are that host and port; on failure the site is at a reachable prefix of that |
| CrossCluster.EnsureExternalName | internal/crosscluster/service.go:56-92 | A host name: an ExternalName Service created, updated, or left when its host is already right |
| CrossCluster.EnsureHeadlessWithEndpoints | internal/crosscluster/service.go:94-146 | An address: a headless Service created if missing, then its Endpoints on that address and port |
| CrossCluster.AliasResolvesToHost | internal/crosscluster/service.go:35-146 | A successful call makes the alias resolve to the host if and only if no alias of the other kind was there: the type of an existing Service is never rewritten. For an address that is host and port, both read off the Endpoints. For a name the port of the Service is the call's if and only if besides it was created, its host changed, or its port was right already |
| CrossCluster.AliasNeverStrays | internal/crosscluster/service.go:35-146 | With hosts of one kind, at every faulting prefix the alias leads to its old host and port, to the new ones or nowhere, and no other Service, Endpoints or Secret moves |
| CrossCluster.AliasOverAnyCalls | internal/crosscluster/service.go:35-146 | Over any sequence of calls that may fail anywhere: after every success right, with its port when hosts are addresses; and never on a host and port that no call asked for |
| CrossCluster.AliasFQDNTellsNamespacesApart | internal/crosscluster/dns.go:9-16 | Alias names of one resource agree exactly when the namespaces do |
| CrossCluster.AliasEnsuredTwice | internal/crosscluster/service.go:56-146 | Ensuring the alias again changes nothing |
| Replication.ApplyService | internal/replicationservice/manager.go:172-192 | A missing Service is created; an existing one gets the selector, and the ports only when they fix a node port |
| Replication.Ensure | internal/replicationservice/manager.go:42-118 | On success the Service has been created, or its selector and, for a node port, its ports refreshed, and the address returned is the one the site gives; on failure that may have happened. It fails only on a reported error or for want of an address |
| Replication.AddressIsServed | internal/replicationservice/manager.go:172-192 | After a success the Service serves the address returned, with its selector on the leader of the target's cluster and its port on the node port, if and only if there was none before or one of the configured type: the type of an existing Service is never rewritten, its selector always is |
| Replication.DiscoverNodeIP | internal/replicationservice/manager.go:195-211 | The first internal address of the first ready node that has one; none exactly when there is no such node |
| Replication.IsNodeReady | internal/replicationservice/manager.go:213-220 | Whether the first Ready condition, by position, is True |
| Replication.Address | internal/replicationservice/manager.go:42-118 | Addresses are never without host or port, and the host override always wins |
| Replication.AddressIs | internal/replicationservice/manager.go:42-118 | There is an address if and only if there is an override or something discovered for the type of Service; its port is the node port, 32432 unless set, or 5432 for a load balancer |
| Replication.ReplicatedTwice | internal/replicationservice/manager.go:172-192 | Ensuring the Service again changes nothing |
| Replication.AliasAndServiceCommute | internal/replicationservice/manager.go:34-36 | The alias and the replication Service never get in each other's way |
| StatusEndpoints.ClusterEndpointFromStatus | internal/controller/postgresmc_controller.go:412-428 | The first entry of that name whose text parses, split at the last colon; the zero endpoint otherwise |
| StatusEndpoints.ParseIs | internal/controller/postgresmc_controller.go:417-428 | A text is read as an endpoint exactly when something stands before its last colon and a numeral for a nonzero integer after it; the port is that integer, taken to 32 bits |
| StatusEndpoints.ToInt32Is | internal/controller/postgresmc_controller.go:428-428 | The conversion to 32 bits keeps what fits and agrees modulo 2 to the 32 otherwise |
| StatusEndpoints.UpdateClusterEndpoint | internal/controller/postgresmc_controller.go:401-408 | The first entry of that name gets the text, no other entry changes |
| StatusEndpoints.EndpointRoundTrip | internal/controller/postgresmc_controller.go:401-428 | Storing host:port and reading it back gives the same pair if and only if the host is not empty and the port not 0, colons in the host and negative ports included; no other cluster's endpoint changes |
| StatusEndpoints.FailoverUsesTheSteadyAddress | internal/controller/postgresmc_controller.go:253-266 | While the status holds the latest address found and the settings are unchanged, a failover computes that address, for both Service types, with or without a host override |
| StatusEndpoints.ExternalPortIsNoOverride | internal/controller/postgresmc_controller.go:259-265 | With an external port set, a failover uses it if and only if no other port is stored; the steady state never does |
| StatusEndpoints.ExternalPortIsIgnored | internal/controller/postgresmc_controller.go:259-265 | A case: the spec says 15432, the failover goes to the stored 32432 |
| Topology.FailoverUsesWhatThePassFound | internal/controller/postgresmc_controller.go:159-174 | For every cluster whose address a normal pass found, a failover planned from that pass's status computes the same address |
| Text.AtoiOfDecimal | internal/controller/postgresmc_controller.go:424-427 | Parsing the decimal print of an integer gives it back |
| Text.AtoiIs | internal/controller/postgresmc_controller.go:424-427 | Exactly the numerals that fit 64 bits are parsed, to their value, with a sign or leading zeros too |
| Text.LastIndexOfSeparator | internal/controller/postgresmc_controller.go:420-423 | The last colon of host:port is the separator, whatever the host |
| Credentials.RewriteClusterName | internal/credentials/syncer.go:104-113 | The first role whose prefix the name has decides; other names pass unchanged |
| Credentials.RewritingRenames | internal/credentials/syncer.go:104-113 | Rewriting the Secret name of one cluster gives the Secret name of the other, for all strings |
| Credentials.SecretNamesDiffer | internal/credentials/names.go:8-13 | Secret names agree only for the same role and cluster |
| Credentials.ClusterNamesDiffer | internal/zalando/builder.go:30-32 | Cluster names of one team agree exactly when the targets do |
| Credentials.SecretDataEqual | internal/credentials/syncer.go:155-166 | The comparison is exactly map equality |
| Credentials.FetchCredentials | internal/credentials/syncer.go:71-85 | The Secrets present on the primary for the credential roles, in order; absence is no error, and only a reported one is |
| Credentials.ApplySecret | internal/credentials/syncer.go:134-153 | Created when absent, left alone when the data is equal, otherwise data and labels replaced; fails only on a reported error |
| Credentials.SyncToStandby | internal/credentials/syncer.go:87-99 | A failing sync has met a reported error and installed some first part of the sources; a succeeding one has installed all |
| Credentials.SyncFromPrimary | internal/credentials/syncer.go:54-67 | Every standby is tried; each one whose result is no error is fully synced; no other site moves. Without a reported error all are |
| Credentials.CredentialsArrive | internal/credentials/syncer.go:54-99 | After a sync, for each role the primary has, the standby holds its own Secret of that role with the primary's data |
| Credentials.OtherSecretsStay | internal/credentials/syncer.go:54-99 | All other Secrets are untouched, wherever the sync was interrupted |
| Credentials.CopiesAreLabelled | internal/credentials/syncer.go:116-132 | Whatever a sync writes carries the labels of the standby's cluster |
| Credentials.SyncedTwice | internal/credentials/syncer.go:134-153 | Syncing again changes nothing |
| Reconciling.CredentialsAreCopied | internal/credentials/syncer.go:54-99 | Both of these for one standby of a pass |
| Reconciling.HasErrors | internal/credentials/syncer.go:41-48 | Whether some cluster's sync failed |
| Reconciling.ReconcileCredentials | internal/controller/reconcile_credentials.go:13-46 | No error means every standby was fully synced from the primary's Secrets, and there is none unless one was reported; only the standbys' sites move |
| Reconciling.ReconcilePrimary | internal/controller/reconcile_primary.go:19-46 | Success means the primary's object is in place, and the answer is whether both its credential Secrets, of roles postgres and standby, exist. It fails only on a reported error or a blob that does not parse |
| CredentialFlow.AppliedHasBoth | internal/controller/reconcile_primary.go:32-46 | In a pass the primary counts as applied only with the Secrets of both roles on its site, and as waiting for credentials only with one of them missing |
| CredentialFlow.BothArrive | internal/controller/reconcile_credentials.go:13-46 | With the primary applied and the copying without an error, every standby with a client ends with its own Secret of either role, holding the primary's data |
| Reconciling.ReconcileStandby | internal/controller/reconcile_standby.go:15-47 | Nothing without an address; the alias first, the object only once the alias stands; success means both. It fails only on a reported error, without an address, or on a blob that does not parse |
| Registry.Cache.GetClient | internal/clusters/registry.go:53-94 | The client returned is the one built from the Secret version just read, cached or not |
| Registry.Cache.Invalidate | internal/clusters/registry.go:96-105 | Exactly the entries of that Secret go |
| Registry.CacheRefinesRebuilding | internal/clusters/registry.go:53-105 | Under any interleaving of concurrent lookups and invalidations every client returned is the one rebuilding would give, provided a resource version fixes content |
| Registry.PurgeIsExact | internal/clusters/registry.go:96-105 | Invalidation removes the entries of that Secret and no other's, for names without the separators |
| Registry.KeyTellsVersionsApart | internal/clusters/registry.go:53-94 | Cache keys are injective for names without / and @ |
| Registry.ImproperNamesCollide | internal/clusters/registry.go:53-94 | With such characters they are not |
| Conditions.SetCondition | internal/status/conditions.go:21-44 | Upsert by type in place; the transition time moves only when the status does |
| Conditions.SetClusterCondition | internal/status/conditions.go:47-58 | Upsert in the entry of that name, or a new entry |
| Conditions.UpsertClusterSets | internal/status/conditions.go:47-58 | The condition is set in the first entry of that name, else in a new one without role or endpoint; no other entry moves |
| Conditions.ConditionRemembersItsLastChange | internal/status/conditions.go:21-44 | For any sequence of calls on any mix of types, each condition carries the latest call's fields and the time of its type's last status change |
| Conditions.ReplayIsUnique | internal/status/conditions.go:21-44 | No type ever appears twice |
| Conditions.EnsureClusterStatusRoles | internal/controller/postgresmc_controller.go:443-465 | Relabels the entries of the spec's clusters and appends the missing ones in spec order |
| Conditions.OldEntriesStay | internal/controller/postgresmc_controller.go:443-465 | Old entries keep their place, conditions and endpoint |
| Conditions.RolesAreComplete | internal/controller/postgresmc_controller.go:443-465 | Afterwards every spec cluster has exactly one entry, with its spec role |
| Conditions.RolesKeepShape | internal/controller/postgresmc_controller.go:443-465 | Unique names, unique condition types and non-empty roles are kept |
| Conditions.Aggregate | internal/status/aggregator.go:9-34 | Ready when all entries are, Failed when none is, Degraded between, Pending without entries |
| Conditions.PhaseIs | internal/status/aggregator.go:9-34 | Ready means that every entry is ready, Failed that none is, Degraded that some are and some are not, Pending that there are none |
| Conditions.ConditionTrue | internal/status/aggregator.go:36-43 | Whether the first condition of the type is True |
| StatusWrites.PassesKeepStatusOk | internal/controller/postgresmc_controller.go:203-226 | Normal and automatic-failover statuses are well formed and consistent |
| StatusWrites.NormalStatusTells | internal/controller/postgresmc_controller.go:210-226 | After a normal pass the top-level Ready condition is True exactly in phase Ready; else it is False, for ClusterUnreachable exactly when some cluster had no client, and for PrimaryNotReady otherwise; an unreachable cluster means Degraded |
| StatusWrites.EntriesTell | internal/controller/postgresmc_controller.go:112-208 | Each target's entry, after a normal pass or automatic failover: Reachable exactly when the cluster had a client, with the error if not; the address found, as host:port; Ready by the outcome of the cluster's own step, and as before if the pass did not get to it |
| StatusWrites.RejectionTells | internal/controller/postgresmc_controller.go:79-89 | A rejected spec means phase Failed and Ready False for SpecInvalid, and moves nothing else in the status |
| StatusWrites.FailoverKeepsStatusOk | internal/controller/postgresmc_controller.go:240-297 | So are the statuses of a failover's start and end, also when the first write was lost |
| StatusWrites.FailoverTells | internal/controller/postgresmc_controller.go:240-297 | Announced: phase FailingOver and FailoverInProgress True, entries relabelled, nothing else moved. Ended: phase Ready, the new primary recorded, FailoverInProgress False and Ready True, nothing else moved |
| StatusWrites.InvalidSpecKeepsStatusOk | internal/controller/postgresmc_controller.go:83-87 | So is that of an invalid spec |
| Resource.PostgresMC.SetClusterReady | internal/controller/postgresmc_controller.go:432-438 | Sets the cluster's Ready condition and nothing else |
| NormalPass.ResolveClients | internal/controller/postgresmc_controller.go:112-131 | Clients in spec order for exactly the clusters whose lookup succeeded; the unreachable ones are exactly those whose lookup failed, and the status says so and why |
| NormalPass.EnsureReplication | internal/controller/postgresmc_controller.go:153-174 | Every reachable cluster's Service and address, or the stored address as fallback; the status shows exactly the addresses found |
| NormalPass.ApplyPrimary | internal/controller/postgresmc_controller.go:176-193 | The primary's outcome, on the cluster and in its Ready condition |
| NormalPass.FollowPrimary | internal/controller/postgresmc_controller.go:201-207 | Every standby is tried; each outcome, on the cluster and in its Ready condition |
| Controller.ServeStandbys | internal/controller/postgresmc_controller.go:195-208 | Credentials first, their failure not stopping the standbys |
| Controller.Work | internal/controller/postgresmc_controller.go:153-208 | Standbys are served only if the primary has a client, was applied and has its credentials |
| Controller.Conclude | internal/controller/postgresmc_controller.go:210-226 | Phase and top-level Ready condition from the entries, overridden when a cluster is unreachable: Ready is True exactly in phase Ready, and its reason says which |
| Controller.CountFailure | internal/controller/postgresmc_controller.go:133-151 | The counter, and that automatic failover fires exactly on an unreachable primary when it is enabled and the count has reached the threshold, 3 if that is 0 |
| Controller.RunAutoFailover | internal/controller/postgresmc_controller.go:306-350 | The roles are rewritten for the first standby in spec order that has a client, or not at all; workload and recorded primary unchanged; exact status afterwards, the count kept when the rewrite reported an error |
| Controller.RunNormal | internal/controller/postgresmc_controller.go:108-233 | A normal pass: the workload as its steps left it, the status a function of the status before and of what the pass saw, or unchanged when the write failed. Written, its Ready condition is the one of StatusWrites.NormalStatusTells. Without a reported error it succeeds, as for a call |
| Selection.SplitByRole | internal/controller/postgresmc_controller.go:365-374 | The last primary and the standbys in order |
| Selection.SelectionOf | internal/controller/postgresmc_controller.go:365-374 | In a valid spec the reachable primary, if any, is the spec's primary, and is not among the standbys |
| AutoPromotion.PickStandby | internal/controller/postgresmc_controller.go:310-316 | The first standby of the list |
| AutoPromotion.RewriteRoles | internal/controller/postgresmc_controller.go:331-338 | The chosen cluster primary, every other one standby |
| AutoPromotion.PromoteKeepsValidity | internal/controller/postgresmc_controller.go:331-338 | Names, order and length unchanged, the spec still valid, the chosen cluster its primary |
| AutoPromotion.RewriteNeedsAFullStreak | internal/controller/postgresmc_controller.go:133-147 | In the counter, whichever primary each pass missed: a rewrite takes a full threshold of consecutive unreachable passes, none of the earlier ones a rewrite, as long as owed resets are stored: that of a rewrite, and that of a reachable pass with a nonzero count |
| AutoPromotion.RewriteRateIsBounded | internal/controller/postgresmc_controller.go:133-151 | Any n passes from a zero count hold at most n/threshold rewrites, as long as each rewrite resets the counter; no other lost write matters |
| AutoPromotion.LostResetBreaksTheBound | internal/controller/postgresmc_controller.go:339-347 | For every threshold above 1 and for both ways a rewrite can fail to reset, a lost write or a role patch that takes effect but reports an error: threshold + 1 passes with two rewrites |
| AutoPromotion.SpacingIsExact | internal/controller/postgresmc_controller.go:339-347 | For every threshold above 1: after a rewrite the next one is a full threshold away in every continuation if and only if the rewrite reset the counter |
| AutoPromotion.StreakIsExact | internal/controller/postgresmc_controller.go:148-151 | After a reachable pass with a nonzero count, every later rewrite has a full streak behind it, in every continuation that goes well, if and only if the zero was stored |
| Calls.CountAfterCall | internal/controller/postgresmc_controller.go:133-151 | The failure count a call of Reconcile leaves is that counter's, its rewrite is one in the history, and calls that are no normal pass do not move it |
| Calls.CallsRewriteSlowly | internal/controller/postgresmc_controller.go:133-151 | The rate bound for the calls themselves: n of them rewrite the spec at most n/threshold times if each that does resets the count |
| Streaks.CountIsItsStreak | internal/controller/postgresmc_controller.go:133-151 | Over calls of any kind, failovers in between: behind a count stand as many normal passes, one after the other, that all missed the very cluster now recorded, as long as owed resets are stored and no failover is recorded at a nonzero count |
| Streaks.RewriteHasItsStreak | internal/controller/postgresmc_controller.go:133-147 | So, at every threshold above 1, a rewrite away from q has a full threshold of consecutive passes behind it that missed q, with no other normal pass, rewrite or recorded failover between them |
| Streaks.FullStreakRewrites | internal/controller/postgresmc_controller.go:133-147 | And it does come: from a zero count, consecutive misses of q without a reported error are counted one by one, and the threshold-th of them, and no earlier one, rewrites the roles, if a standby has a client by then |
| Streaks.StreaksAreExact | internal/controller/postgresmc_controller.go:288-297 | At every threshold above 1, after a failover that recorded q: every later rewrite, in every continuation that goes well, has a full streak of misses of the primary it moves away from behind it if and only if the failure count was zero when q was recorded |
| Streaks.CarriedCountFiresEarly | internal/controller/postgresmc_controller.go:288-297 | After a failover recorded q at a nonzero count c: threshold - c misses of q, at least one, and the roles are rewritten away from it; at c = threshold - 1 the next call does, and leaves phase Ready |
| Witnesses.FailoverCarriesTheCount | internal/controller/postgresmc_controller.go:288-297 | At every threshold above 1, from any state in which a failover is about to be recorded one miss short of it: record, start, one miss, rewrite |
| Witnesses.AFailoverCarriesItsCount | internal/controller/postgresmc_controller.go:288-297 | Such a state lies on a run from the start: a is missed once, the user moves the role to b, and b's first miss moves it back |
| Streaks.StaleReadyWasCarried | internal/controller/postgresmc_controller.go:288-306 | At every threshold above 1, phase Ready beside a nonzero count comes from an earlier failover recorded at a nonzero count and from nothing else |
| Streaks.TakenOverReadyWasCarried | internal/controller/postgresmc_controller.go:306-350 | So a call that automatic failover takes over ends Ready, its primary lost, only after such a failover |
| Streaks.AStaleReady | internal/controller/postgresmc_controller.go:306-350 | At every setting, threshold 1 included, a call that misses its primary, is taken over, and has phase Ready before and after |
| Announced.OtherWritesKeepIt | internal/controller/postgresmc_controller.go:84-226 | No status of a normal pass, of automatic failover or of an invalid spec moves FailoverInProgress |
| Announced.InProgressIsAnnounced | internal/controller/postgresmc_controller.go:240-297 | Over calls of any kind, FailoverInProgress is true exactly when some call announced a failover and none has been recorded since |
| Announced.WhenItLingers | internal/controller/postgresmc_controller.go:102-106 | It is true with no failover due exactly when the spec names again the primary that an announced failover was to move away from |
| Announced.ItLingersForGood | internal/controller/postgresmc_controller.go:210-226 | Further quiet calls then leave it true, beside phase Ready unless an older spec's entry was not |
| Api.ValidateSpec | internal/controller/postgresmc_controller.go:467-483 | Accepts exactly the specs with distinct names and exactly one primary |
| Api.PrimaryClusterName | internal/controller/postgresmc_controller.go:376-383 | The first target with the primary role |
| Api.PrimaryByName | internal/controller/postgresmc_controller.go:376-383 | In a valid spec that name singles out the one primary |
| Readiness.ReadyIsEarned | internal/controller/postgresmc_controller.go:112-226 | A normal pass ends Ready if and only if in that pass no cluster was without a client, the primary was applied with its credentials present, every standby was reconciled, and entries left over from an older spec were Ready already |
| Readiness.ReadyConditionIsEarned | internal/controller/postgresmc_controller.go:112-226 | So does the top-level condition: Ready is True if and only if the pass earned it in that sense, and False with its reason otherwise; phase Failed means that all clusters were reachable and none is Ready |
| Readiness.WorkIsCoherent | internal/controller/postgresmc_controller.go:176-208 | What a pass can have seen: the primary tried iff it has a client, the reachable standbys iff the primary is up |
| Topology.StandbyEndsOnThePrimary | internal/controller/reconcile_standby.go:15-47 | After a pass in which everything worked each standby follows the alias in its own namespace, and that resolves to the primary's address if and only if no alias of the other kind was in the way |
| Topology.ReadyPassLeavesAStar | internal/controller/postgresmc_controller.go:153-226 | A normal pass that ends Ready leaves a star: every other cluster a standby of the alias in its own namespace, which resolves to the primary's endpoint; the recorded primary is the spec's and, given one writer at most, the only one |
| Calls.ReadyCallLeavesAStar | internal/controller/postgresmc_controller.go:54-226 | The same for a call of Reconcile, from its history alone: had a client for every cluster, leaves the star, and nothing else anywhere is writable |
| Calls.TakenOverKeepsThePhase | internal/controller/postgresmc_controller.go:306-350 | A call taken over by automatic failover leaves phase, conditions, recorded primary and workload as they were: it ends Ready, the primary unreachable, exactly when it was Ready before |
| Topology.RunLeavesAlmostAStar | internal/failover/orchestrator.go:75-96 | Right after a whole failover run every other cluster of the plan streams from the port resolved for the new primary, 5432 if that is 0, with the user's fields in its object; aliases are on that host and port if and only if none of the other kind was there. The repointed standbys follow their own alias if and only if they share the new primary's namespace; the old primary follows the new one's host |
| Handover.PlanUsesTheFoundAddress | internal/controller/postgresmc_controller.go:253-266 | A failover planned from the status of a normal pass resolves its new primary to the very address that pass found, whatever else changed in the spec in between |
| Handover.FailoverGoesWhereThePassFound | internal/failover/orchestrator.go:54-99 | So once it went through, every other cluster streams from the port that pass found, the old primary from the host too, and the aliases lead there unless one of the other kind was in the way |
| Handover.LastAddressHolds | internal/controller/postgresmc_controller.go:160-168 | A pass that does not find the primary's address anew uses the one the last written pass found or itself still used |
| Steady.CleanPassIsAFunction | internal/controller/postgresmc_controller.go:153-208 | A clean pass takes every object and site to a function of the spec, the sites and the primary's Secrets, whatever was there before |
| Steady.OnlyTargetsMove | internal/controller/postgresmc_controller.go:153-208 | No pass, however it goes, touches anything outside the spec's targets |
| Steady.SecondPassChangesNothing | internal/controller/postgresmc_controller.go:153-208 | A second clean pass sees the same and leaves every object, Service, Endpoints and Secret as the first left them |
| Steady.StatusSettles | internal/controller/postgresmc_controller.go:112-226 | The same events at any later time write the same status, transition times included |
| Steady.SteadyStateIsAFixpoint | internal/controller/postgresmc_controller.go:153-232 | Both together: a second clean pass changes neither workload nor status |
| Convergence.QuietCallIsClean | internal/controller/postgresmc_controller.go:94-233 | With a valid spec, no failover due, a client for every cluster, no reported error, a blob that parses, the primary's credentials present and an address for every target, a call is a normal pass in which everything works, and its status is written |
| Convergence.QuietCallEndsInAStar | internal/controller/postgresmc_controller.go:94-233 | It leaves a star around the spec's primary and no other writer, with the user's fields, team, name and namespace in every target's object, unless an alias of the other kind stood in the way, and phase Ready exactly when the entries left over from an older spec were Ready |
| Convergence.QuietCallCopiesCredentials | internal/controller/postgresmc_controller.go:195-208 | It leaves every standby with its own Secret of either role, holding the primary's data |
| Convergence.QuietCallsConverge | internal/controller/postgresmc_controller.go:94-233 | Main result on convergence: after one such call any number of further ones, whenever they come, leave workload and status exactly as they are |
| Convergence.QuietFailoverIsRecorded | internal/controller/postgresmc_controller.go:235-301 | With a failover due and its plan not blocked, such a call carries it out and records it: none is due afterwards, and everything needed for a clean pass is still there |
| Convergence.QuietSystemConverges | internal/controller/postgresmc_controller.go:94-301 | From any state with all this provided: at most one failover, one normal pass, and from then on nothing changes |
| CleanWitness.ACleanPassExists | internal/controller/postgresmc_controller.go:153-226 | A concrete clean pass over two clusters meets the hypotheses of the results on clean passes and on the star |
| CleanWitness.AQuietCallExists | internal/controller/postgresmc_controller.go:94-233 | The first call on a concrete resource meets those of the results on convergence |
| CleanWitness.AFailoverIsRecorded | internal/controller/postgresmc_controller.go:235-301 | At every setting and every failure count, a concrete call that carries out a failover and records it with that count: the hypotheses of the results on failovers in a chain of calls can be met |
| Remote.Fleet.WritePg | internal/failover/orchestrator.go:144-146 | An apply or patch may succeed, fail without effect, or fail after taking effect; it is a step of the machine |
| Remote.Fleet.Client | internal/clusters/registry.go:53-60 | A client is obtained or not, and the pass's record says which; every later write to the cluster needs it |
| Remote.Fleet.PatchStatus | internal/controller/postgresmc_controller.go:87-87 | A status merge patch sends the fields that differ, with the same three outcomes |
| Remote.Fleet.Begin | internal/controller/postgresmc_controller.go:102-106 | Starts a failover pass exactly when a primary is recorded that is not the spec's |
| Remote.Fleet.PatchRoles | internal/controller/postgresmc_controller.go:331-341 | The role rewrite lands in the spec as it is then, with the same three outcomes |

## Left out

- Deletion and finalizers: `handleDeletion`, `removeFinalizer` and the `Delete` helpers of Services are not modelled.
- The Kubernetes client, watches, informer caches (a pass reads the latest resource), events, logging, requeue delays and manager wiring: a call is an abstract outcome, a pass may start at any time.
- Kubeconfig parsing and client construction: an uninterpreted function of the Secret's content in `Registry`, a call that may fail elsewhere. The cache's time-to-live is an expiry allowed at any moment.
- Zalando, Patroni and PostgreSQL themselves: only the presence and target of the standby section count.
- `net.ParseIP`: an arbitrary predicate on hosts.
- Server-side apply and field ownership: an apply by the only owner replaces the object.
- What the clusters' own operators do during a pass: sites move between passes only, except by the operator's writes.
- Targets that share a workload cluster and namespace: each target has a site of its own, since the names of the alias and replication Services depend on the resource alone.
- A change of a target's cluster reference or namespace, or of `teamId`, under the same name: objects and sites are kept by target name.
- A `postgresqlSpec` that is the JSON literal null: the resource's schema only admits objects. Other text that is no object makes the builders fail, as in the code.
- Wrap-around of the 32-bit failure counter after two thousand million passes.
- Error texts: only the parts of messages that the status keeps apart are told apart; clocks are read once per pass.
- A spec made invalid under a failover in flight: `Machine` has the step and `EditGuard` its exact guard; the methods keep the spec valid then, so that a pass has one plan.
- Two operators at once: leader election is assumed, so passes over one resource do not overlap.
