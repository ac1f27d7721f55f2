# Kubinate verified model

Kubinate drives k3s clusters on a cloud provider. This project models its
stateful core in Dafny and proves what that core promises, over every input and
every run:

- **Cluster fleet** (`Fleet*.dfy`): the runner, the workflows, the cluster
  repository and the scale and destroy requests, over a provider, a cluster row,
  a server table and Kubernetes nodes. Every provider call, SSH command, kubectl
  call and SQL transaction is one atomic step that may succeed, be refused, or
  take effect and still report an error. Requests on one cluster run one after
  another.
- **Secrets and migration** (`Secret*.dfy`, `Migration*.dfy`): the two
  encryption backends on one `secrets` table, and the program that re-encrypts
  rows in place while it pages through them with LIMIT and OFFSET.
- **Multi-factor authentication** (`Mfa*.dfy`): passkeys, recovery codes and
  sessions, with any number of requests interleaved at every repository call.
- **Small algorithms**: the sliding-window limiter (`RateLimit.dfy`), metrics
  text and selection (`Metrics*.dfy`), Stripe signatures (`Stripe.dfy`), the
  event hub and its stream (`EventHub.dfy`, `FleetStream.dfy`), audit-log paging
  (`AuditPaging.dfy`), shell quoting (`Shell.dfy`) and Base64URL
  (`Base64Url.dfy`).

Each component has a specification (functions from the state before a call to
the state after it), lemmas about that specification, and, where the program
updates state step by step, a class or a method with loops that is proved to do
exactly what the specification says: `FleetRunner.LocalRunner`, the classes of
`SecretStores`, `MigrationTool.Migrator`, `MfaStore.MfaDatabase`,
`RateLimit.RateLimiter`, `EventHub.ClusterEventHub` and
`Metrics.InMemoryMetricsStore`. The table lists their runs and loops; their
straight-line methods are proved in the same way. `dafny verify dfyconfig.toml`
checks everything.

Nothing is assumed about cryptography: encryption is symbolic (a sealed message
opens under its own key only) and the keyed hash of Stripe is a parameter.
Clocks, random values, generated ids and all answers of the outside world are
parameters.

## What the code does beyond, or against, its documentation

The model follows the code. These are the places where the two part.

- A failed provision or scale-out leaves servers at the provider that no row
  records; no later destroy finds them (`FleetLife.DestroyGivesTheCloudBack`).
- A scale request writes `worker_count` before its run writes `Scaling`. If the
  run fails in between, the cluster stays Ready with a wrong count, and a later
  scale-in can then delete every worker (`FleetCounts.ScaleCanStall`,
  `FleetCounts.WrongCountEmptiesTheFleet`).
- Scale-in soft-deletes rows outside a tenant transaction and drops errors. Under
  the row-level policy the update then matches no row. The model keeps such
  soft-deletes in `swallowed`; the next scale-in picks the same dead rows first,
  and the live fleet outgrows `worker_count` (`FleetStale.StaleRowsComeFirst`,
  `FleetDrift.LifeWithoutSoftDeletes`).
- A run that fails outside its workflow (before it starts, while recording
  servers, or while storing the kubeconfig) publishes no terminal event and leaves
  the cluster Provisioning or Scaling (`FleetOutcomes.ProvisionOutcome`,
  `FleetOutcomes.ScaleOutOutcome`), where no scale request is accepted
  (`FleetRequests.ScaleIsGated`).
- `finalize_destroy` cannot be repeated once the row is soft-deleted
  (`FleetLife.HiddenIsFinal`). Its secret deletion never succeeds, because the
  cluster row still refers to the secret and the foreign key restricts deletion.
- One migration run passes over every second batch; the header of the program
  says it reads every row. Fatal errors exit with code 1, not 2.
- The limiter forgets everything before `now` when `now - window` is before the
  clock's origin, and what it forgot is missing at later calls too
  (`RateLimit.ExactIff`, `RateLimit.ForgottenAdmissionsMatterLater`).
- Metric, label and matcher names are written unescaped and nothing checks them,
  although the store is documented to override a claimed tenant and the query
  endpoint to rule out cross-tenant reads. Both hold exactly for well-formed
  names (`MetricsProofs.TextReadsBackIff`, `MetricsProofs.SelectorReadsBackIff`);
  `MetricsProofs.NameCanCarryALine` and `MetricsProofs.MatcherCanReadATenant`
  give the other names.
- Registering a passkey and regenerating recovery codes are documented to need a
  session that completed the assertion; they accept any live session
  (`MfaOrigins.PartialSessionCanPromoteItself`).
- The session lifetime is documented as sliding; a session ends 30 days after it
  was issued, however it is used (`MfaSessions.ResolvableIff`).
- The trigger behind `requires_mfa` means to read all organizations, but the
  table forces row-level security on the role the program runs as. The model
  allows both (`MfaSignIn.FlagMeans`, `MfaSignIn.SecondOrganizationHidesTheFirst`).
- The audit log is documented as ordered by time-ordered ids, but the trigger
  generates random ones (`AuditPaging.PagesAreTheFirstSnapshotIff`).
- A matcher with an empty value selects samples without the label in the
  backend and none of them in the in-memory store (`MetricsProofs.MatcherAgreesIff`).
- In a Stripe header the last `t` decides, even when only an earlier one parses;
  the age check is wrapping 64-bit arithmetic (`Stripe.DriftIsDistance`).
- The event stream ends only when an event arrives after the terminal one
  (`EventHub.StreamEvents`), so the first event of the next run ends it and is
  not sent (`FleetStream.NextRunIsHidden`).

## Model

| member | source | states |
|---|---|---|
| FleetLife.NoServerIsLostSilently | crates/workflows/src/runner.rs:134-865 | over every life of a cluster (provision, then any scale and destroy requests in any order) and every pattern of failed or half-finished calls: servers that were at the provider before stay, the unrecorded live servers are exactly those the growing runs lost, a Ready cluster has none, and there are none at all if every provision and scale-out reported success |
| FleetClean.ProvisionSucceeds | crates/workflows/src/runner.rs:134-244 | when every call is answered and ids are left, every fresh cluster ends Ready with its kubeconfig stored; the provider gained exactly one control plane and the workers 0 to n - 1, all recorded with role and address, and exactly those hosts joined Kubernetes, none drained |
| FleetClean.ScaleOutSucceeds | crates/api/src/clusters.rs:735-819 | the same for a scale request of delta more workers from an agreeing Ready state: they run under the next free names, exactly they are recorded and joined, the count grows by delta, and the cluster is Ready again |
| FleetClean.PollIff | crates/workflows/src/activities.rs:129-158 | polling yields a server with or without an address if and only if one of the permitted polls finds it running so and every earlier poll was answered with a server still starting |
| FleetErrors.ProvisionMeetsNoError | crates/workflows/src/runner.rs:134-244 | a provision that reports success met no error in any of its calls |
| FleetErrors.ScaleOutMeetsNoError | crates/workflows/src/runner.rs:560-698 | nor did a scale-out that reports success |
| FleetErrors.ScaleInMeetsOnlyDropped | crates/workflows/src/runner.rs:709-865 | a scale-in that reports success met at most one error for each worker it removed, in its soft-deletes |
| FleetErrors.DestroyMeetsOnlyDropped | crates/workflows/src/runner.rs:269-340 | a destroy that reports success met at most one error, in deleting the kubeconfig secret, and none if there was no secret |
| FleetOutcomes.ProvisionOutcome | crates/workflows/src/runner.rs:134-244 | a provision reports success if and only if it closes with the ready event, after all its steps; it closes with failed if and only if its workflow failed, and then the status is Failed unless that write was refused; every other failure closes with no event |
| FleetOutcomes.ScaleOutOutcome | crates/workflows/src/runner.rs:560-698 | the same for a scale-out; one that fails before its workflow stays Scaling and says nothing |
| FleetOutcomes.ScaleInOutcome | crates/workflows/src/runner.rs:709-865 | the same for a scale-in |
| FleetOutcomes.DestroyOutcome | crates/workflows/src/runner.rs:269-340 | the same for a destroy, with destroyed as its end |
| FleetRequests.ScaleIsGated | crates/api/src/clusters.rs:735-819 | a scale request on a hidden or not Ready cluster, or to a sum outside 1 to 10, changes nothing and fails; one for no change succeeds and changes nothing; any other writes the sum and starts the run for exactly that difference |
| FleetRequests.DestroyIsGated | crates/api/src/clusters.rs:317-345 | a destroy request reaches its run if and only if the cluster is visible and both first calls are answered |
| FleetRequests.DestroyBegins | crates/cluster/src/service.rs:140-166 | a destroy run begins exactly on a visible cluster that is not marked destroyed, and marks it Destroying |
| FleetRequests.CreateIff | crates/cluster/src/service.rs:250-286 | a new cluster is accepted if and only if its name is not blank, its region and server type are offered, it has one control plane and 1 to 10 workers, and the insert is answered |
| FleetRequests.DestroyGoesInOrder | crates/cluster/src/repository.rs:426-466 | a destroy deletes the servers of all live rows, control planes before workers, each role in creation order |
| FleetRequests.RecordingIsIdempotent | crates/cluster/src/repository.rs:390-424 | recording a server adds its row with role and address unless a live row has its id, and recording it again, in whatever role, changes nothing |
| FleetRequests.FirstKubeconfigWins | crates/cluster/src/service.rs:75-102 | a second kubeconfig, or one for a hidden cluster, is refused, the row stays, and the new secret does not stay behind |
| FleetRequests.HostTextIs | crates/workflows/src/activities.rs:294-336 | the two spellings of hostnames, with two digits for the first hundred workers |
| FleetLife.DestroyGivesTheCloudBack | crates/workflows/src/runner.rs:269-340 | a destroy that succeeds at the end of any life leaves the provider as it was before the cluster if and only if no earlier run lost a server; what remains otherwise is exactly the lost servers; no live row is left and the cluster row is hidden and Destroyed |
| FleetLoss.DestroyIsWholeIff | crates/workflows/src/runner.rs:134-865 | a destroy that succeeds at the end of any life gives the provider back if and only if no provision or scale-out of that life stopped between a creation that took effect and the commit of that server's row |
| FleetLoss.ScaleOutLosesIff | crates/workflows/src/runner.rs:655-681 | a scale-out loses a server if and only if its workflow failed after a creation took effect, or one of its rows was not committed |
| FleetLoss.ProvisionLosesIff | crates/workflows/src/runner.rs:174-223 | the same for a provision, counting the control plane's row first |
| FleetLoss.ProvisionCanLose | crates/workflows/src/runner.rs:134-244 | from every fresh cluster a lost reply to the control plane's creation loses a server |
| FleetLife.DestroyRetriesConverge | crates/cluster/src/service.rs:140-211 | however many destroys failed before, the first that succeeds ends with the provider, the server rows and the cluster row of one undisturbed destroy |
| FleetLife.HiddenIsFinal | crates/cluster/src/service.rs:171-211 | once the cluster row is soft-deleted no request of any kind changes anything, so a destroy cut off between hiding and marking the row cannot be finished |
| FleetLife.InterruptedFinalize | crates/cluster/src/service.rs:177-211 | for every visible cluster there is a failure that leaves finalize_destroy in that state |
| FleetSafety.ProvisionAccounts | crates/workflows/src/runner.rs:134-244 | one provision, whatever fails: unrecorded servers before stay unrecorded, what the run made and did not record is added, and a run that reports success recorded everything it made |
| FleetSafety.ScaleOutAccounts | crates/workflows/src/runner.rs:560-698 | the same account for a scale-out, from any consistent Ready state |
| FleetSafety.ScaleInAccounts | crates/workflows/src/runner.rs:709-865 | a scale-in never makes a server unrecorded, whatever fails and whichever soft-deletes are dropped |
| FleetSafety.DestroyAccounts | crates/workflows/src/runner.rs:269-340 | a destroy touches no server that is not recorded, and one that succeeds leaves no recorded server live, no live row, and the row hidden and Destroyed |
| FleetCounts.NamesAndCountAgree | crates/workflows/src/runner.rs:605-608 | with growing provider ids, in every reachable Ready state with no dropped soft-delete and no stalled request, the recorded workers in id order carry hostname indices 0, 1, 2, …, their number is worker_count, and it is between 1 and 10 |
| FleetCounts.CountStaysInBounds | crates/api/src/clusters.rs:763-784 | over every life of a cluster accepted by create, worker_count is between 1 and 10 |
| FleetRuns.CreatedIsFresh | crates/cluster/src/service.rs:43-51 | an accepted creation passed the allowlist and starts a cluster of that name and size without servers; a number of workers outside 1 to 10 is refused |
| FleetCounts.ProvisionEndsNamed | crates/workflows/src/runner.rs:174-223 | a provision that ends Ready has exactly worker_count recorded workers, and with growing ids they carry the indices they were named by |
| FleetCounts.ScalingIsRightInEveryLife | crates/workflows/src/runner.rs:739-778 | in those states a scale-in drains exactly the nodes whose servers it deletes, the youngest ones, and the next index names no live server of the cluster |
| FleetCounts.ScaleKeepsAgreement | crates/api/src/clusters.rs:743-811 | a scale request from an agreeing Ready state that ends Ready agrees again if and only if no soft-delete was dropped and the request did not stall after writing the count |
| FleetCounts.ScaleCanStall | crates/api/src/clusters.rs:781-784 | from every agreeing Ready state there is a failure that leaves the cluster Ready with a count its fleet does not have, because the count is written before the run announces itself |
| FleetCounts.WrongCountEmptiesTheFleet | crates/api/src/clusters.rs:763-811 | a count that is too high lets a scale-in, with nothing failing, delete every worker while the count it leaves is the permitted minimum |
| FleetNaming.TargetsMatchHostnames | crates/workflows/src/runner.rs:739-778 | in a named fleet the rebuilt node name of every scale-in target is the hostname of the very server it deletes |
| FleetNaming.NextIndexIsFree | crates/workflows/src/runner.rs:605-608 | in a named Ready fleet no live server of the cluster has the name of the next index or a later one |
| FleetNaming.ScaleOutEndsNamed | crates/workflows/src/runner.rs:560-698 | how a scale-out can end Ready: stalled, or with the fleet widened by exactly the requested workers under the next indices |
| FleetNaming.ScaleInEndsNamed | crates/workflows/src/runner.rs:709-865 | how a scale-in of a named fleet can end Ready: stalled, with dropped soft-deletes still listed, or with exactly the youngest workers gone and the others still named |
| FleetStale.StaleRowsComeFirst | crates/workflows/src/runner.rs:739-747 | after a successful scale-in whose soft-deletes had no effect, the next one picks the same rows first: it deletes no live server until they are used up, and then only servers of the rows behind them |
| FleetStale.SoftDeletesCanBeDropped | crates/workflows/src/runner.rs:827-836 | from every Ready cluster a scale-in whose soft-deletes alone have no effect reports success and keeps every row |
| FleetDrift.LifeWithoutSoftDeletes | crates/workflows/src/runner.rs:709-865 | over lives in which every request succeeds and no soft-delete takes effect: the table keeps a row for every worker ever made in index order, the running servers are exactly those no scale-in aimed at since they were made, worker_count is the created number plus all deltas, and the live fleet exceeds it by the removals that hit rows of servers already gone |
| FleetDrift.SurplusIsWaste | crates/api/src/clusters.rs:763-811 | that surplus is never negative |
| FleetTeardown.ScaleInFollowsPlan | crates/workflows/src/workflows.rs:393-411 | the calls of every attempt are a first part of: all drains, then all node deletions, then all server deletions; of a successful one, all of it |
| FleetTeardown.ScaleInRemovesPrefix | crates/workflows/src/workflows.rs:393-411 | the servers an attempt deleted are a first part of the targets, none before every node is gone, and nothing that is not a target is touched |
| FleetTeardown.RetriedScaleInConverges | crates/workflows/src/workflows.rs:393-411 | however many attempts failed, the first success ends in the state of one clean run |
| FleetEvents.ProvisionStory | crates/workflows/src/runner.rs:103-244 | a provision publishes a first part of its steps, then at most one terminal event; ready only after all steps and with the status written |
| FleetEvents.ScaleOutStory | crates/workflows/src/runner.rs:560-698 | the same for a scale-out |
| FleetEvents.ScaleInStory | crates/workflows/src/runner.rs:709-865 | the same for a scale-in |
| FleetEvents.DestroyStory | crates/workflows/src/runner.rs:269-340 | the same for a destroy, with destroyed as its goal |
| FleetModel.HostTextIsInjective | crates/workflows/src/activities.rs:294-336 | within one cluster different servers have different hostnames, for any number of workers |
| FleetModel.RecordedIdReadsBack | crates/workflows/src/runner.rs:184-297 | the stored id is the largest signed 64-bit number not above the id, so it names the server it was stored for exactly when that fits |
| FleetRunner.LocalRunner.RunProvision | crates/workflows/src/runner.rs:134-244 | executes the provision run in place, step by step, ending in exactly the world FleetRuns.RunProvision gives, about which FleetClean.ProvisionSucceeds and FleetOutcomes.ProvisionOutcome say when it succeeds |
| FleetRunner.LocalRunner.RunDestroy | crates/workflows/src/runner.rs:269-340 | executes the destroy run in place |
| FleetRunner.LocalRunner.RunScaleOut | crates/workflows/src/runner.rs:560-698 | executes the scale-out run in place; FleetClean.ScaleOutSucceeds says when it succeeds and what it builds |
| FleetRunner.LocalRunner.RunScaleIn | crates/workflows/src/runner.rs:709-865 | executes the scale-in run in place |
| FleetRunner.LocalRunner.ForgetServers | crates/workflows/src/runner.rs:827-836 | the soft-delete loop that drops its errors |
| FleetRunner.LocalRunner.ProvisionCluster | crates/workflows/src/workflows.rs:90-169 | executes the provision workflow in place |
| FleetRunner.LocalRunner.AddWorkers | crates/workflows/src/workflows.rs:308-350 | the three loops that create, await and join workers |
| FleetRunner.LocalRunner.ScaleIn | crates/workflows/src/workflows.rs:393-411 | the three loops that drain, remove and delete |
| FleetRunner.LocalRunner.DeleteServers | crates/workflows/src/workflows.rs:218-228 | the deletion loop, stopping at the first error |
| FleetRunner.LocalRunner.WaitForCloudInit | crates/workflows/src/activities.rs:129-158 | the bounded poll loop, whose result FleetClean.PollIff reads off the replies |
| FleetRunner.LocalRunner.ScaleWorkers | crates/api/src/clusters.rs:735-819 | the Ready gate, the bounds and the spawned run |
| SecretRefinement.StoresRefineOneMap | crates/platform/src/secrets.rs:137-561 | every sequence of calls on both backends over one table, with migrations and failures in between, gives the answers and ends in the contents of one map from handle to tenant, backend tag and plaintext, as long as the transit counter does not wrap |
| SecretRefinement.StepRefines | crates/platform/src/secrets.rs:137-561 | one call on either backend, or one migrated row, is one step of that map |
| SecretRefinement.StoredSecretReadsBack | crates/platform/src/secrets.rs:137-561 | after a successful put and any calls but a delete by its own tenant, get returns the plaintext through the backend the row is tagged with, Decrypt through the other, and NotFound for every other tenant |
| SecretRefinement.DeleteIsTenantScoped | crates/platform/src/secrets.rs:218-246 | a delete removes exactly the secret of that id and tenant, and reports success either way |
| SecretRefinement.OtherKekReadsNothing | crates/platform/src/secrets.rs:186-216 | a secret stored under one KEK reads as its plaintext under that KEK and is undecryptable under every other, whatever calls come between, until the row is migrated or deleted |
| SecretRefinement.LostVaultAnswers | crates/platform/src/secrets.rs:402-415 | a stored Vault secret answers invalid KEK when the engine no longer has the tenant's key, and undecryptable when it has the key but not the text |
| SecretRefinement.SealExtends | crates/platform/src/secrets.rs:380-400 | short of wrapping, an encryption adds one ciphertext nobody had and changes no other |
| SecretRefinement.FreshUntilTheCounterWraps | crates/platform/src/secrets.rs:386-400 | the next ciphertext of a key is new if and only if fewer than 2^64 encryptions came before |
| SecretModel.VaultKeyNameSeparatesTenants | crates/platform/src/secrets.rs:309-311 | two tenants have the same transit key name only if they are the same tenant |
| SecretModel.CiphertextTextReadsBack | crates/platform/src/secrets.rs:386-400 | a ciphertext of the in-memory engine is the fixed prefix and the counter in 16 hexadecimal digits |
| Uuids.UuidTextReadsBack | crates/platform/src/secrets.rs:309-311 | the organization is spelled as 8-4-4-4-12 hexadecimal digits that read back as its id |
| MigrationProofs.MigrationAccounting | crates/vault-migrate/src/main.rs:128-181 | every run, whatever fails: rows that left the listing are at least those counted migrated and at most those counted migrated or failed; a completed apply run leaves no more rows than migrated plus errors, and one that exits 0 at most half |
| MigrationProofs.ErrorFreeRunLeavesOddBlocks | crates/vault-migrate/src/main.rs:133-166 | an apply run that exits 0 leaves exactly every second block of batch_size rows of the original listing |
| MigrationProofs.OddBlocksAreTheOddOnes | crates/vault-migrate/src/main.rs:133-149 | row i of the listing is passed over if and only if i / batch_size is odd |
| MigrationProofs.RunsNeeded | crates/vault-migrate/src/main.rs:133-166 | k such runs empty the listing if and only if it has at most (2^k - 1) * batch_size rows |
| MigrationProofs.OneRunSuffices | crates/vault-migrate/src/main.rs:133-166 | one run empties the listing if and only if it fits one batch; a batch size of zero or less does nothing |
| MigrationProofs.EachRowIsVisitedAtMostOnce | crates/vault-migrate/src/main.rs:133-166 | every run visits rows in id order, none twice, and only candidates |
| MigrationProofs.DryRunVisitsEverything | crates/vault-migrate/src/main.rs:133-166 | a dry run changes nothing and, when it completes, visits every candidate exactly once |
| MigrationRehearsal.DryRunTellsReadability | crates/vault-migrate/src/main.rs:190-213 | an undisturbed dry run skips exactly the candidates that open under the KEK and counts every other as an error, so it exits 0 if and only if every candidate opens |
| MigrationRehearsal.RehearsalForecasts | crates/vault-migrate/src/main.rs:128-241 | in the undisturbed apply run after it each visited row stays a candidate if and only if the dry run could not open it; there are never more errors than forecast, exactly as many when everything fits one batch, and a second dry run finds the same number |
| MigrationRehearsal.CalmRunCounts | crates/vault-migrate/src/main.rs:128-181 | an undisturbed run in either mode counts one success for each visited row that opens and one error for each that does not, and applying takes exactly the former out of the listing |
| MigrationMeaning.MigrationPreservesMeaning | crates/vault-migrate/src/main.rs:190-241 | wherever a run stops, every secret keeps its tenant and its plaintext under the backend its tag names, and a row that moved is returned by VaultStore |
| MigrationMeaning.VisitAllIsFaithful | crates/vault-migrate/src/main.rs:190-241 | the same after any sequence of row migrations, so also in the middle of a page |
| MigrationMeaning.CalmRunsFinishIff | crates/vault-migrate/src/main.rs:128-166 | over readable rows, k undisturbed runs finish the migration if and only if there are at most (2^k - 1) * batch_size rows |
| MigrationMeaning.CalmRunHalves | crates/vault-migrate/src/main.rs:128-166 | an undisturbed run at least halves the readable candidates, whatever unreadable rows lie among them |
| MigrationMeaning.RerunsLeaveOnlyUnreadableRows | crates/vault-migrate/src/main.rs:128-166 | undisturbed runs, more than the binary logarithm of the readable candidates, leave exactly the rows that do not open under the KEK |
| MigrationMeaning.CalmRunProgresses | crates/vault-migrate/src/main.rs:128-166 | an undisturbed run migrates at least one row while a readable one is left, and exits 0 if all are readable |
| MigrationTool.Migrator.Execute | crates/vault-migrate/src/main.rs:112-181 | the program: count, batch loop, counters, exit code; MigrationRehearsal.CalmRunCounts says what the counters mean |
| MigrationTool.Migrator.PageLoop | crates/vault-migrate/src/main.rs:133-166 | the loop itself, which terminates |
| MfaTraces.PromotionNeedsProof | crates/api/src/auth_passkey.rs:262-338 | in every interleaving of requests, a session that was not satisfied and later is was promoted by a request that, for the session's own user, recorded a use of a live passkey or redeemed a live recovery code |
| MfaOrigins.PromotionIsBackedIff | crates/api/src/auth_passkey.rs:262-338 | a promotion rests on a factor that was there when the session was seen unsatisfied, or that a satisfied session of the user brought in since, if and only if the factor was not brought in since without a satisfied session; from the session's issue on, the proof is always later |
| MfaOrigins.PromotionIsRooted | crates/api/src/auth_passkey.rs:262-338 | if from some step on every registration and rotation for a user came from a satisfied session, every later promotion rests on an earlier proof or on a chain of factors and sessions that ends in a factor available at that step or a session satisfied then or issued satisfied |
| MfaOrigins.PartialSessionCanPromoteItself | crates/api/src/auth_passkey.rs:469-510 | from every consistent state a live partial session can rotate the codes, redeem the new one and become satisfied, because rotation asks for a session and not for a satisfied one |
| MfaOrigins.FactorOrigin | crates/identity/src/repository.rs:821-1117 | a factor that can be used was there at the earlier step and not brought in since, or there is a last registration or rotation that brought it in |
| MfaTraces.ClearedHasProof | crates/api/src/auth_passkey.rs:522-586 | no request reaches the promotion step without that proof |
| MfaSignIn.SessionStartsPartialIff | crates/api/src/auth.rs:159-164 | a session starts partial if and only if, when the sign-in decided, its user held a live Owner or Admin membership that the trigger saw and had a live passkey |
| MfaSignIn.FlagMeans | migrations/20260508174335_users_requires_mfa.sql:62-116 | after any run requires_mfa is set exactly when the user holds a live Owner or Admin membership and the trigger, reading all organizations or one, saw such a membership at the last write to the user's memberships; so the flag is right if and only if the trigger saw |
| MfaSignIn.UnscopedTriggerSees | migrations/20260508174335_users_requires_mfa.sql:62-116 | a trigger that reads every organization always sees |
| MfaMembers.RequiredIff | migrations/20260508174335_users_requires_mfa.sql:62-116 | with such a trigger, from the empty database, requires_mfa holds if and only if the last event that took effect on some membership row made the user a live Owner or Admin |
| MfaMembers.MemberStep | crates/identity/src/repository.rs:366-450 | what each event does to each membership row |
| MfaSignIn.SecondOrganizationHidesTheFirst | migrations/20260424120000_initial.sql:112-116 | with row-level security on the trigger's query, a Viewer membership in a second organization clears the flag of an Owner of the first |
| MfaSignIn.FlagsAreFacts | crates/identity/src/repository.rs:821-1000 | in every run mfa_enrolled holds exactly when the user has a live passkey, and a partial session is required exactly when the user also holds a privileged membership the trigger saw |
| MfaSignIn.MfaStateIsTruthful | crates/identity/src/session.rs:217-253 | the four states shown to the dashboard, in terms of memberships the trigger saw, passkeys and the session rather than the flags |
| MfaTraces.BatchLife | crates/identity/src/repository.rs:1058-1117 | from one rotation to the next the redeemable codes of a user are exactly the batch without the codes spent since |
| MfaTraces.CodeWorksIff | crates/identity/src/repository.rs:1093-1117 | a code redeems if and only if it is of the current batch and was not spent since |
| MfaTraces.CodeSpendsOncePerBatch | crates/identity/src/repository.rs:1093-1117 | the same code is spent twice only with a rotation of that user's batch in between |
| MfaTraces.PasskeysNeverGoBack | crates/identity/src/repository.rs:904-1000 | between any two moments no passkey counts down, changes hands, or comes back from revocation |
| MfaUses.UseClearsIff | crates/identity/src/repository.rs:904-950 | in every run a clean record clears its verified request and stores the reported counter if and only if the passkey is not revoked at that step and either no earlier step left it a counter above 0 or the reported one is greater than the last one left; otherwise the request ends and nothing is stored |
| MfaUses.ZeroCounterAlwaysClears | crates/identity/src/repository.rs:926-935 | a passkey that only ever reported 0 clears every assertion that reports 0, until it is revoked |
| MfaUses.LeftIsStored | crates/identity/src/repository.rs:904-950 | the stored counter is the one the reports so far leave, read off the events |
| MfaUses.UsableIff | crates/identity/src/repository.rs:954-1000 | an enrolled passkey is usable exactly until its own user revokes it |
| MfaUses.PasskeyStep | crates/identity/src/repository.rs:821-1000 | what each event does to each passkey: when it is enrolled, revoked or counted |
| MfaUses.AssertionSucceedsIff | crates/api/src/auth_passkey.rs:262-338 | an uninterrupted assertion succeeds if and only if the session is alive and its user has a live passkey with that credential to which the counter is new or which never counted; it then satisfies that session and stores that counter, and otherwise changes nothing |
| MfaUses.RedemptionSucceedsIff | crates/api/src/auth_passkey.rs:522-586 | an uninterrupted redemption succeeds if and only if the session is alive and its user has that code unused; it then satisfies that session and uses up exactly that code |
| MfaTraces.LaterUsesCountUp | crates/identity/src/repository.rs:926-935 | once a recorded use left a non-zero counter every later use leaves a larger one; MfaUses.UseClearsIff says when a use is recorded |
| MfaTraces.OwnerStays | crates/identity/src/session.rs:260-286 | a session never changes its user, and a revoked one never changes at all; MfaSessions.LogoutEnds says what revokes one |
| MfaSessions.LogoutEnds | crates/identity/src/session.rs:278-286 | after a logout that reached the database the session resolves at no later step, is never shown as enrolled, and starts no assertion and no redemption |
| MfaSessions.RevokedIff | crates/identity/src/session.rs:278-286 | a session is revoked if and only if it already was or a logout reached it since |
| MfaSessions.ResolvableIff | crates/identity/src/session.rs:319-352 | from an empty table a session resolves if and only if it was issued, was not logged out since, and less than 30 days passed |
| MfaSessions.SatisfiedIff | crates/identity/src/session.rs:260-272 | a session is satisfied if and only if it already was or a request that proved a factor for it promoted it before any logout |
| MfaUses.LoginIssues | crates/api/src/auth.rs:159-164 | a login of a known user under a new id issues a session of that user for 30 days, partial if and only if both flags are set |
| MfaProofs.EveryReachableStateIsConsistent | crates/identity/src/repository.rs:821-1117 | in every state reached from the empty database: mfa_enrolled as live passkeys say, requires_mfa never set without a privileged membership, foreign keys, unique live credentials and code hashes, and every request bound to its session's user and passkeys |
| MfaProofs.InvAfter | crates/identity/src/repository.rs:821-1117 | every interleaving of requests keeps that |
| MfaProofs.PolicyStep | migrations/20260508174335_users_requires_mfa.sql:62-116 | the trigger, whatever it can see, never leaves requires_mfa set for a user without a privileged membership, also when a row changes hands |
| MfaProofs.RotationIs | crates/identity/src/repository.rs:1058-1091 | a rotation succeeds if and only if no hash repeats or is live for another user, and then exactly the new batch is redeemable and nobody else's codes changed |
| MfaProofs.InsertCodesIs | crates/identity/src/repository.rs:1072-1089 | the insert loop succeeds exactly on an insertable batch and then appends it |
| MfaProofs.MarkUsedIs | crates/identity/src/repository.rs:1093-1117 | redeeming takes one hash from one user and nothing else |
| MfaStore.MfaDatabase.Rotate | crates/identity/src/repository.rs:1058-1091 | delete, insert loop, commit or nothing |
| MfaStore.AssertIsItsSteps | crates/api/src/auth_passkey.rs:262-321 | an uninterrupted handler is its steps of the interleaved model in a row |
| MfaStore.RedeemIsItsSteps | crates/api/src/auth_passkey.rs:522-563 | the same for redeeming |
| MfaRequests.StartsOrStays | crates/api/src/auth_passkey.rs:262-338 | a request starts under a free id, for the session's user, only when its session resolves; a call that does not fit its stage does not move it |
| MfaRequests.AssertionMoves | crates/api/src/auth_passkey.rs:262-312 | an assertion goes on exactly when its user has a live passkey with the credential, with that passkey and the counter the ceremony reports |
| MfaRequests.RedemptionMoves | crates/api/src/auth_passkey.rs:522-563 | a redemption is cleared exactly when its user has that code unused and the reply is clean |
| MfaRequests.Ends | crates/api/src/auth_passkey.rs:312-338 | a request ends when it is dropped, when a login was answered and when a promotion was tried |
| MfaRequests.OthersStay | crates/api/src/auth_passkey.rs:262-586 | no event moves a request it does not belong to |
| RateLimit.ExactIff | crates/api/src/rate_limit.rs:43-55 | for times that do not run backwards per key, every verdict of a run is that of a limiter that remembers all admissions if and only if, at every call, the window is not full or the admissions since the greatest cutoff so far fill it |
| RateLimit.VerdictIs | crates/api/src/rate_limit.rs:43-55 | what the limiter decides: it counts its own admissions of the key since the greatest cutoff so far |
| RateLimit.LimiterIsExact | crates/api/src/rate_limit.rs:43-55 | that holds whenever the cutoff of every call is representable |
| RateLimit.NoWindowOverflows | crates/api/src/rate_limit.rs:43-55 | wherever that holds, no closed interval of the window's length holds more than max admitted calls of a key |
| RateLimit.KeysAreIndependent | crates/api/src/rate_limit.rs:43-55 | a key's verdicts are those it would get alone, whatever the times |
| RateLimit.OverAdmitsNearTheOrigin | crates/api/src/rate_limit.rs:46-46 | for every limit and every window longer than one tick, one call too many is admitted near the clock's origin |
| RateLimit.ForgottenAdmissionsMatterLater | crates/api/src/rate_limit.rs:46-49 | with a limit of 2 and a window of 100, calls at 1, 2 and 101 are all admitted: the second drops the first, and the third, though representable, is one too many |
| RateLimit.UnrepresentableCutoff | crates/api/src/rate_limit.rs:46-46 | one call from a complete queue whose cutoff is not representable is decided right if and only if the window was not full, or is full with admissions of this instant |
| RateLimit.RateLimiter.CheckAt | crates/api/src/rate_limit.rs:43-55 | the pruning loop and the admission, in place |
| MetricsProofs.TextReadsBackIff | crates/observability/src/metrics.rs:314-342 | the backend stores a batch as it was sent, stamped with the writer's tenant, if and only if the metric and label names of its lines are well formed |
| MetricsProofs.StoredNameIs | crates/observability/src/metrics.rs:318-324 | a sample is stored under the value of its first __name__ label, and under unknown when it has none |
| MetricsProofs.WritesStayOwn | crates/observability/src/metrics.rs:314-342 | with well-formed names every stored line carries the writer's tenant, whatever tenant its labels claim |
| MetricsProofs.NameCanCarryALine | crates/observability/src/metrics.rs:318-339 | a metric name that spells another tenant's line is stored as that line under the other tenant |
| MetricsProofs.SelectorReadsBackIff | crates/observability/src/metrics.rs:346-355 | the backend is asked exactly the query's metric, tenant and matchers if and only if the matcher names are well formed |
| MetricsProofs.MatcherCanReadATenant | crates/observability/src/metrics.rs:346-355 | a matcher name that closes the selector and names another tenant is answered with that tenant's sample, where without the other tenant's write the answer would be empty |
| MetricsProofs.MatcherCanNameATenant | crates/observability/src/metrics.rs:346-355 | the text of that query reads as the asker's selector or a selector for the other tenant |
| MetricsProofs.OtherTenantsAreInvisible | crates/observability/src/metrics.rs:314-355 | with well-formed names in all writes and in the query, a tenant's answers are the same as if no other tenant had written |
| MetricsProofs.StoresAgree | crates/observability/src/metrics.rs:166-226 | after any writes by any tenants a query through text, backend and selector returns what the in-memory store selects, for samples with well-formed, distinct names, a metric name and no tenant label, and matchers with well-formed names other than the tenant's and non-empty values |
| MetricsProofs.MatcherAgreesIff | crates/observability/src/metrics.rs:216-225 | on a sample the two stores treat a matcher alike if and only if its value is not empty or the sample has the label |
| MetricsText.PromEscapeIsSimultaneous | crates/observability/src/metrics.rs:256-260 | the three chained replacements are one simultaneous character map |
| MetricsText.ReadQuotedEscaped | crates/observability/src/metrics.rs:256-260 | that map has a left inverse: the quoted text reads back as the value |
| MetricsText.EscapeIsInjective | crates/observability/src/metrics.rs:256-260 | escaping never makes two values alike |
| Metrics.ToPromText | crates/observability/src/metrics.rs:314-342 | the rendering loop |
| Metrics.InMemoryMetricsStore.QueryRange | crates/observability/src/metrics.rs:177-193 | the tenant's matching samples in order |
| Stripe.AcceptedIff | crates/integrations/src/stripe.rs:187-231 | a well-formed header is accepted if and only if its last timestamp is within tolerance, or so far away that the difference wraps into it, and some v1 value, read as hexadecimal digits of either case, is the MAC of the bytes to be signed; otherwise which error it is |
| Stripe.SignsIs | crates/integrations/src/stripe.rs:216-219 | the bytes hashed are the only ones that are the decimal spelling of the time, a dot and the payload |
| Stripe.SignsIsInjective | crates/integrations/src/stripe.rs:216-219 | the same bytes are signed for one time and one payload only |
| Stripe.EqualIffItReads | crates/integrations/src/stripe.rs:234-252 | a text equals the printed bytes, ignoring letter case, if and only if its digit pairs read back as those bytes |
| Stripe.HeaderVerifiesIff | crates/integrations/src/stripe.rs:187-231 | a header of one time and one v1 value, with any white space around keys and values, is accepted in time if and only if the value reads as the MAC of the bytes signed for that time and the payload, and is a mismatch otherwise |
| Stripe.TamperedIsMismatch | crates/integrations/src/stripe.rs:187-231 | with a MAC that never collides, a signature made for one time and payload is a mismatch for every other time or payload |
| Stripe.DriftIsDistance | crates/integrations/src/stripe.rs:211-214 | the wrapping 64-bit check refuses a timestamp if and only if it is too far away and neither exactly 2^63 seconds nor within the tolerance of 2^64 seconds away |
| Stripe.SignedHeaderVerifies | crates/integrations/src/stripe.rs:187-231 | every header with the MAC of the signed bytes is accepted in time, for all 64-bit times, however the time is written, in either case of the digits and with any white space |
| Stripe.MalformedIff | crates/integrations/src/stripe.rs:194-209 | a header is malformed if and only if some part has no '=', no v1 part exists, or the last t part does not parse |
| Stripe.WrappedDriftIsSmall | crates/integrations/src/stripe.rs:211-214 | the largest and the smallest time count as one second apart |
| Stripe.ScanKeepsTheLastTimestamp | crates/integrations/src/stripe.rs:196-206 | the loop keeps the last t part's value, also when it does not parse |
| Stripe.VerifySignature | crates/integrations/src/stripe.rs:187-231 | the header loop, the checks and the comparison, as executed; Stripe.AcceptedIff and Stripe.MalformedIff say what it answers |
| Stripe.HexLowerLoop | crates/integrations/src/stripe.rs:234-241 | two lower-case digits per byte |
| Stripe.ConstantTimeEq | crates/integrations/src/stripe.rs:243-252 | accumulates differences and is true exactly on equal strings, ignoring letter case |
| Numerals.ParseShow | crates/integrations/src/stripe.rs:202-218 | a printed 64-bit number parses to itself |
| Numerals.ShowIsTheSpelling | crates/integrations/src/stripe.rs:202-218 | the printed number is the only decimal spelling without needless zeros or signs that parses to it |
| Text.TrimIs | crates/integrations/src/stripe.rs:198-199 | trimming takes all white space from both ends and nothing else |
| EventHub.ReceiverSeesItsCluster | crates/workflows/src/events.rs:85-116 | what a receiver was handed accounts in order for a first part of exactly the events published to its cluster since it subscribed |
| EventHub.ChannelHoldsAll | crates/workflows/src/events.rs:85-116 | a channel with a receiver is never dropped and holds everything published since the receiver came |
| EventHub.PublishKeepsHeardChannels | crates/workflows/src/events.rs:85-104 | in every run a publish leaves the cluster's channel behind exactly when somebody listens to it, and touches no other channel |
| EventHub.WithoutLagNothingIsMissed | crates/workflows/src/events.rs:61-65 | a receiver that never lagged saw the events themselves |
| EventHub.ReceiveHandsOut | crates/workflows/src/events.rs:61-65 | in every run a receive hands out the oldest waiting event while at most 64 wait, and beyond that reports exactly how many it passes over to be left with 64 |
| EventHub.StreamEvents | crates/api/src/clusters.rs:557-577 | the stream sends everything up to the first terminal event, and ends itself only when an event after it arrives |
| FleetStream.RunIsShownIff | crates/api/src/clusters.rs:557-577 | a connection that kept up is sent everything since it subscribed, a whole run included, if and only if no terminal event was published between the subscription and the run; otherwise it is sent nothing of the run |
| FleetStream.NextRunIsHidden | crates/api/src/clusters.rs:566-577 | the end of one run and the first event of the next on one connection: both are received, the second is not sent |
| FleetStream.CaughtUpSawAll | crates/workflows/src/events.rs:85-116 | a receiver that kept up was handed exactly what its cluster published since it subscribed |
| EventHub.CutIs | crates/api/src/clusters.rs:566-577 | what is sent holds at most one terminal event, in last place, and drops nothing before it |
| EventHub.StreamMirrorsItems | crates/api/src/clusters.rs:557-577 | a connection is greeted once and then sent one frame for each item handed out, an event as itself and a lag as a marker, and stops early only behind a terminal event |
| AuditPaging.PagingIsStable | crates/api/src/audit_log.rs:60-120 | with ids that only grow, following the pages gives exactly the entries of the first request, newest first, each once, for every limit |
| AuditPaging.PagesAreTheFirstSnapshotIff | crates/api/src/audit_log.rs:60-120 | for arbitrary ids that holds if and only if no request finds a later entry below its cursor |
| AuditPaging.FollowIs | crates/api/src/audit_log.rs:60-120 | whatever is added meanwhile, the pages are in order, repeat nothing, miss none of the old entries and hold only the organization's |
| AuditPaging.LaterEntryCanIntrude | migrations/20260424120300_audit_log.sql:105-110 | since ids are random, an entry added after a full first page with an id below its last one shows up in a later page |
| AuditPaging.MoreRemainIff | crates/api/src/audit_log.rs:60-60 | a page holds 50 entries, or as many as asked for within 1 to 200, or all that are left; entries remain if and only if there are more |
| Shell.CommandReadsBack | crates/workflows/src/activities.rs:172-203 | a command of fixed words and escaped values is read by the shell as exactly those words, whatever the values contain |
| Shell.EscapedIsOneWord | crates/workflows/src/activities.rs:280-286 | an escaped value is read as one word equal to the value |
| Shell.JoinCommandReadsBack | crates/workflows/src/activities.rs:198-203 | the agent installation passes address, version and token unchanged |
| Base64Url.RoundTrip | frontend/src/lib/api/passkey.ts:137-155 | every buffer survives encoding and decoding |
| Base64Url.UrlOfIsUrlSafe | frontend/src/lib/api/passkey.ts:150-155 | the encoding has no padding, the URL-safe alphabet of section 5 of RFC 4648 and the expected length |
| Base64Url.UrlOfIsByBits | frontend/src/lib/api/passkey.ts:150-155 | character i stands, in the table of section 5 of RFC 4648, for bits 6i to 6i + 5 of the buffer, and the text covers every bit |
| Base64Url.PaddingIsRestored | frontend/src/lib/api/passkey.ts:138-139 | the padding computed from the length is the padding that was stripped |
| Base64Url.EncodingsAre | frontend/src/lib/api/passkey.ts:137-155 | a text is the encoding of some buffer if and only if it is URL-safe, not of length 1 modulo 4, and its unused last bits are zero |
| Base64Url.UrlOfIsInjective | frontend/src/lib/api/passkey.ts:150-155 | two buffers have the same text only if they are equal |
| Base64Url.BufferToBase64Url | frontend/src/lib/api/passkey.ts:150-155 | the encoding loop |
| Base64Url.Base64UrlToBuffer | frontend/src/lib/api/passkey.ts:137-144 | the decoding loop into a fresh array, with no result exactly when the browser would reject the text |

## Left out

- Two runs on one cluster at the same time: the program does not serialize them; the model runs requests on a cluster one after another.
- Database isolation anomalies: every transaction is atomic and serial; row-level security is a filter on the organization.
- HTTP, gRPC, SSH, helm and kubectl plumbing, retries and timeouts: only success, refusal and a lost reply of each call are modelled.
- Provider idempotency keys: a repeated creation makes a new server.
- Addon installation and removal, agent heartbeats, the workflow shadow table (its writes are steps without effect on the modelled state) and error reasons.
- Cryptographic primitives, base64 and length validation of the KEK, zeroization, and that comparison time does not depend on the data.
- StoresRefineOneMap: holds while the transit counter does not wrap; the real Vault has no such counter, and `FreshUntilTheCounterWraps` says exactly when a wrap matters.
- MigrationPreservesMeaning: takes each row migration as atomic and the table as changed by nobody else during the run; `StoresRefineOneMap` covers other calls between row migrations.
- SessionStartsPartialIff: speaks of the moment the sign-in reads the two flags; a role or passkey change between that read and the insert of the session is not seen by the program either.
- PromotionNeedsProof: the WebAuthn ceremony is a step that accepts with some counter or does not; challenges, attestation and ceremony expiry are not modelled.
- Route-level role checks, invitations, API keys, audit triggers and the audit hash chain.
- StoresAgree: needs well-formed names, which the program does not check (`TextReadsBackIff` and `SelectorReadsBackIff` say exactly what other names do to the text), distinct labels and no tenant label; it leaves out the time resampling of the backend, float formatting (a number is its printed text) and the order of labels in an answer.
- LimiterIsExact: needs call times of a key in order; the program reads the clock before it takes the lock, so two threads may disagree with that order.
- WritesStayOwn: says nothing about batches with other names; `TextReadsBackIff` does.
- OtherTenantsAreInvisible: says nothing about writes or queries with other names; for those the two exact conditions on the text apply. A backend query is one selector or several joined by `or`.
- AcceptedIff: header values are ASCII, so characters and bytes coincide.
- TamperedIsMismatch: takes a MAC that never collides for the secret; what a collision would let through is `HeaderVerifiesIff`.
- ProvisionSucceeds: speaks of runs in which every call is answered and a server runs at its first poll; `PollIff` says which other replies a poll accepts, and the outcome lemmas what any error leads to.
- CommandReadsBack: words only; expansions, redirections and reserved words outside quotes are outside the reader, and a template word that contains such a character is refused.
- ReceiverSeesItsCluster: the order of wake-ups and the waking of waiting receivers are not modelled, only what each receive returns.
- PagingIsStable: the caller compares a page with the clamped limit; one that asks for more than 200 entries and compares with that number stops after the first page.
- Billing, plan deduplication, organization ownership, configuration, telemetry, problem mapping and the frontend components: they would only add easy members.
