# Model of the OGX operator's hard parts

A Dafny model of the parts of the OGX Kubernetes operator whose guarantees rest on
its own code, with proofs of those guarantees. The main theorems speak of all inputs,
all runs or all reachable states; a few lemmas give one instance that shows where a
property ends. Hashes, base64 and the table of printable runes are parameters.

## Parts

- **Garbage collection** (`Retention`, `ConfigMapGC`, `ConfigMapReconciler`): the
  deletion loop as a counting problem, and the clean-up as a step system that
  interleaves with a Deployment controller creating, pruning and rolling back
  ReplicaSets.
- **Praxis migration** (`Conditions`, `Migration`, `MigrationReconciler`,
  `MigrationReports`, `MigrationRuns`, `MigrationDiscipline`): the status and the
  migration Job as a state machine. `Migration` gives each step as a function,
  `MigrationReconciler` has the methods that overwrite the status in place, proved equal
  to those functions, `MigrationReports` says what every reconcile reports, and the other
  two modules prove properties of single steps and of whole runs.
- **Config compiler** (`EnvNames`, `ProviderTypes`, `Secrets`, `Providers`, `Compiler`,
  `Webhook`, `Storage`, `Generator`): three separate traversals of the same spec and
  the theorem that they agree, with the non-injective name normaliser between them;
  the storage section, its Praxis rewrite and the API filter.
- **Small algorithms** (`LruCache`, `Resolver`, `GoQuote`, `AttemptKey`, `Shell`,
  `Adoption`).

A method and the function that specifies it come in pairs: the method has the loops
and in-place updates of the code, its postcondition equates its result with the
function, and the properties are lemmas about the function.

## What the proofs turned up

- Once validated, a migration whose Job was removed by disabling stays Validated after
  re-enabling, but its cutover condition is not raised again
  (`MigrationDiscipline.ValidatedWithoutJobNeverCutsOver`) until a reconcile demotes the
  phase, as one failing preflight does (`MigrationDiscipline.FailingCheckReopensCutover`).
- When a reconcile raises the cutover condition and loses its status write, the next one
  with the same inputs announces the cutover again
  (`MigrationDiscipline.LostRiseIsAnnouncedAgain`). Events and rising edges of the
  condition agree if and only if no such write is lost
  (`MigrationRuns.EventsAreEdgesUnlessARiseIsLost`).
- `GenerateConfig` reports that it filtered the Praxis-served APIs even when nothing
  survives, and then serves all of them (`Generator.FilteredFlagCanMislead`; the exact
  condition is `Generator.FilteredFlagIsHonestWhenSomethingSurvives`).
- `storage.stores: null` blocks the vector-store declaration
  (`Storage.NullStoresBlockTheRewrite`), and an SQL backend with an empty name hides
  every other backend but `sql_default` (`Storage.EmptyNameHidesBackends`).
- An image that contains `;` can make the attempt-key text ambiguous
  (`AttemptKey.ImageWithSemicolonIsAmbiguous`), though only at the border between image
  and fallbacks (`AttemptKey.TextsAgreeExactly`).
- An adoption annotation equal to the server's own name, which the webhook refuses,
  would switch an adopted server to its default volume
  (`Adoption.SameNameAnnotationSwitchesVolume`).
- A server that asks for a volume another server has adopted is told it has it. The
  volume is its own exactly in the cases of `Adoption.AdoptedMeansHeldExactly`.

## Model

| member | source | states |
|---|---|---|
| `Conditions.ConditionList.SetCondition` | controllers/status.go:320-341 | the in-place update equals `Set` on the old list: first entry of the type merged, else appended |
| `Conditions.GetAfterSet` | controllers/status.go:320-354 | reading any type after a set gives the merged entry for that type and what was there before for every other |
| `Conditions.TypesAreUniqueInFirstSeenOrder` | controllers/status.go:320-341 | after any calls from an empty list the types are unique and in first-seen order |
| `Conditions.ConditionTrace` | controllers/status.go:320-341 | after any calls an entry carries the last Status, Reason and Message of its type, and its LastTransitionTime is the time of the first call of the current run of equal Status |
| `Conditions.NeverCalledIsAbsent` | controllers/status.go:344-354 | a type never set is absent |
| `ConfigMapGC.EveryReachableStateIsSafe` | controllers/ogxserver_controller.go:671-704 | in every reachable state of reconciler and Deployment-controller steps, with any ConfigMap named in the status, every generated ConfigMap mounted as user-config by the Deployment or a ReplicaSet exists with the config it was generated for |
| `ConfigMapGC.ReconcilerKeepsInvariant` | controllers/configmap_reconciler.go:156-185 | each reconciler step (create, roll out, list, read, delete one) keeps the safety invariant although references move in between |
| `ConfigMapGC.ControllerKeepsInvariant` | controllers/configmap_reconciler.go:283-327 | ReplicaSet creation, rollback, pruning and Deployment deletion keep it at any point of a clean-up |
| `ConfigMapGC.ControllerAddsNoReference` | controllers/configmap_reconciler.go:283-327 | the Deployment controller never mounts a name that was not mounted already |
| `ConfigMapGC.BothReadsCoverEverything` | controllers/configmap_reconciler.go:283-327 | the Deployment read before the ReplicaSet list together protect everything mounted when the list returns |
| `ConfigMapGC.RuntimeRefsExactly` | controllers/configmap_reconciler.go:318-327 | a template refers to a name exactly when it has a user-config volume for it and the name is not empty |
| `ConfigMapGC.MountedVolumesAreBacked` | controllers/configmap_reconciler.go:283-327 | after any run, a generated ConfigMap that a template of the Deployment or a ReplicaSet mounts as user-config is there with its config |
| `ConfigMapGC.RolloutMountsItsConfig` | controllers/configmap_reconciler.go:156-185 | generating and then deploying a config under a free or equal name ends with that config existing and mounted |
| `ConfigMapGC.ReadsProtectExactly` | controllers/configmap_reconciler.go:283-316 | the two reads protect exactly the name the clean-up runs for, the one in the status and everything mounted |
| `ConfigMapGC.UndisturbedCleanUp` | controllers/configmap_reconciler.go:209-269 | an undisturbed clean-up spares the current name and everything mounted and leaves as many ConfigMaps as that, at least two |
| `ConfigMapReconciler.Cluster.EnsureGeneratedConfigMap` | controllers/configmap_reconciler.go:156-185 | an existing ConfigMap with the same config is kept, one with another config is an error, an absent one is created; one that another writer creates meanwhile is taken as it is, and success means this config exactly unless that one holds another |
| `ConfigMapReconciler.Cluster.CollectRuntimeConfigMapRefs` | controllers/configmap_reconciler.go:318-327 | the loop over volumes adds exactly the runtime references of the template |
| `ConfigMapReconciler.Cluster.ReferencedRuntimeConfigMapNames` | controllers/configmap_reconciler.go:283-316 | the protected names are exactly the current one, the one in the status, and all references of the Deployment and the ReplicaSets; none are given when a read fails |
| `ConfigMapReconciler.Cluster.CleanupOldGeneratedConfigMaps` | controllers/configmap_reconciler.go:209-269 | the protected names are exactly the mounted ones, the current one and the one in the status; the loops remove what the retention loop removes for them, which leaves max(2, protected) of the listed names when no delete fails; nothing changes when a listing or a read fails |
| `Retention.SortByCreation` | controllers/configmap_reconciler.go:240-244 | sorting in place gives a permutation ordered by creation time |
| `Retention.RetentionHolds` | controllers/configmap_reconciler.go:225-268 | whatever deletes fail, nothing protected is deleted and at least max(2, protected) remain; exactly that many when none fails |
| `Retention.OldestUnprotectedGoFirst` | controllers/configmap_reconciler.go:240-268 | when no delete fails, the deleted ones are the oldest unprotected ones |
| `Retention.RunLoopKeepsInvariant` | controllers/configmap_reconciler.go:246-268 | the loop's accounting of removed and remaining entries, from any position |
| `Retention.RetentionExactly` | controllers/configmap_reconciler.go:225-268 | as many are deleted as exceed max(2, protected), or all that are neither protected nor refused if those are fewer: a refused delete does not stop the loop |
| `Retention.ProtectedCountIsCardinality` | controllers/configmap_reconciler.go:233-238 | the counting loop gives the number of protected names among the listed ones |
| `MigrationReconciler.Reconciler.ReconcileMigration` | controllers/migration_job.go:74-115 | one reconcile leaves exactly the status, Job and events of `Migration.ReconcileMigration`, error returns included |
| `MigrationReconciler.Reconciler.HandleMigrationNotRequested` | controllers/migration_job.go:128-138 | the disabled path: delete the owned Job, then clear the state if there is history |
| `MigrationReconciler.Reconciler.HasMigrationHistory` | controllers/migration_job.go:140-157 | finds history in the status record or in any of the five condition types |
| `MigrationReconciler.Reconciler.ClearMigrationState` | controllers/migration_job.go:159-183 | clears everything but a Validated phase with its key and the rollback warning |
| `MigrationReconciler.Reconciler.EnsureSoftRollbackWarning` | controllers/migration_job.go:185-191 | sets the warning and its condition |
| `MigrationReconciler.Reconciler.ApplyPreflightFailure` | controllers/migration_job.go:193-207 | overwrites the phase, a Validated one included, and lowers the four other conditions |
| `MigrationReconciler.Reconciler.MarkMigrationWaiting` | controllers/migration_job.go:845-867 | records the attempt as waiting, overwriting a Validated phase |
| `MigrationReconciler.Reconciler.ObserveMigrationJob` | controllers/migration_job.go:869-903 | maps a Complete, Failed, active or pending Job to phase, conditions and events |
| `MigrationReconciler.Reconciler.EnsureMigrationJob` | controllers/migration_job.go:580-601 | uses an existing Job, creates none once validated, otherwise creates one |
| `MigrationReconciler.Reconciler.ReconcileExistingMigrationJob` | controllers/migration_job.go:603-629 | refuses an unowned Job, keeps a terminating or Complete one, deletes a stale unfinished one |
| `MigrationReconciler.Reconciler.CreateMigrationJob` | controllers/migration_job.go:678-708 | creates the Job, or reads back an owned one that appeared meanwhile |
| `MigrationReconciler.Reconciler.DeleteMigrationJob` | controllers/migration_job.go:639-653 | deletes the Job if it is there, owned and not already terminating |
| `MigrationReconciler.Reconciler.FailureDetail` | controllers/migration_job.go:923-950 | the detail of the failed condition, as the loop over conditions finds it |
| `MigrationReconciler.Reconciler.WarnSoftRollbackOnPraxisDisable` | controllers/migration_job.go:969-976 | repeats the warning while there is a migration record |
| `MigrationReports.ReconcileReportsTheJob` | controllers/migration_job.go:869-950 | every reconcile that goes on with a Job reports its own conditions: a Complete, Failed, active, pending or waiting Job gives its phase, record, five conditions with reasons, message and events; a Failed one gives one JobFailed warning unless that reason stood already |
| `MigrationReports.FailureDetailOfFirst` | controllers/migration_job.go:923-950 | the detail is the reason and the message of the first true Failed condition |
| `MigrationReports.FailingCheckReported` | controllers/migration_job.go:193-207 | a failing check overwrites the record, lowers the other conditions with their reasons and is announced once |
| `MigrationReports.NoJobReported` | controllers/migration_job.go:74-115 | without a Job to go on with, warning and preflight are written and phase, outcome conditions and record stay |
| `MigrationReports.DisabledReported` | controllers/migration_job.go:128-183 | a disabled reconcile that cannot let the Job go, or finds no trace of a migration, changes no status; any other clears it down to a Validated phase with its key and the warning |
| `MigrationReports.ErrorsExactly` | controllers/migration_job.go:74-115 | exactly when a reconcile returns an error |
| `MigrationReports.RequestedExactly` | controllers/migration_job.go:117-126 | migration is requested exactly when the spec has both sections and switches neither off |
| `MigrationReports.FailureEventsAreNewFailures` | controllers/migration_job.go:923-950 | over any run the JobFailed events number the reconciles that newly find a failure |
| `MigrationReports.FailureEventsAreEdgesAndLostFailures` | controllers/migration_job.go:923-950 | over any run they number the rising edges of the stored failure plus the new failures whose status write was lost |
| `MigrationRuns.CutoverInvariantHolds` | controllers/migration_job.go:845-950 | in every state reachable from empty status the three outcome conditions agree, when True the phase is Validated, and a Validated phase means a reconcile observed an owned, live, Complete Job with the recorded key |
| `MigrationRuns.ReconcileKeepsCutoverInvariant` | controllers/migration_job.go:74-115 | one reconcile keeps the cutover invariant for any Job, inputs and API failures |
| `MigrationRuns.CutoverEventsAreRisingEdges` | controllers/migration_job.go:905-921 | over any run the cutover events number the reconciles that compute a rise of the condition from the status they read |
| `MigrationRuns.CutoverEventsAreEdgesAndLostRises` | controllers/migration_job.go:905-921 | over any run they number the rising edges of the stored condition plus the rises whose status write was lost |
| `MigrationRuns.EventsAreEdgesUnlessARiseIsLost` | controllers/migration_job.go:905-921 | so they number exactly the rising edges of the condition if and only if no rise loses its write |
| `MigrationDiscipline.LostRiseIsAnnouncedAgain` | controllers/migration_job.go:905-921 | after any run a rise that loses its write is announced a second time by the next reconcile: two events, one edge |
| `MigrationDiscipline.OneEdgeTwoEvents` | controllers/migration_job.go:905-921 | the shortest such run, for every Complete owned Job |
| `MigrationRuns.RollbackWarningIsPermanent` | controllers/migration_job.go:128-191 | migration record, warning and rollback condition are equivalent in every reachable state and stay once there |
| `MigrationRuns.RollbackNeverWithdrawn` | controllers/migration_job.go:159-183 | so the branch that sets the rollback condition False is never reached |
| `MigrationDiscipline.CreationDiscipline` | controllers/migration_job.go:580-601 | a Job creation is announced exactly when preflight passed, no Job of that name exists, the phase is not Validated and the API accepts; the Job carries the current key |
| `MigrationDiscipline.JobAfterReconcile` | controllers/migration_job.go:580-629 | exactly when an absent Job is there afterwards, created or appeared meanwhile; one that is there stays, at most put into deletion |
| `MigrationDiscipline.DeletionDiscipline` | controllers/migration_job.go:603-676 | exactly which Jobs a reconcile deletes: never an unowned one, and never a Complete one while migration is requested |
| `MigrationDiscipline.UnownedJobIsNeverReported` | controllers/migration_job.go:631-637 | an unowned Job, found at the start or read back after a failed create, changes neither phase, key nor outcome conditions to anything new |
| `MigrationDiscipline.CutoverRisesOnCompleteJob` | controllers/migration_job.go:905-921 | one reconcile raises the cutover condition exactly when it gets as far as an owned, live, Complete Job, the one read back after a failed create included |
| `MigrationDiscipline.ValidatedIsKeptUnlessDemoted` | controllers/migration_job.go:193-207 | a Validated phase survives a reconcile exactly when preflight does not fail and no unfinished or terminating owned Job is met |
| `MigrationDiscipline.ValidatedIsRemembered` | controllers/migration_job.go:128-183 | over any run without such a reconcile, disabling, enabling and key changes included, the phase stays Validated and no Job is created |
| `MigrationDiscipline.ValidatedWithoutJobNeverCutsOver` | controllers/migration_job.go:565-601 | after disabling has removed the Job, re-enabling does not raise the cutover condition over any run in which the Job does not reappear, until a reconcile demotes the phase |
| `MigrationDiscipline.FailingCheckReopensCutover` | controllers/migration_job.go:193-207 | a failing preflight demotes it: the next good reconcile creates a Job, whose completion raises the condition |
| `MigrationDiscipline.StepTowardsSettled` | controllers/migration_job.go:603-667 | with a stable key no step moves an owned, unvalidated attempt away from being settled, whatever call or check fails and whether or not migration is requested; the helpful step strictly decreases the distance |
| `MigrationDiscipline.HelpfulStepExists` | controllers/migration_job.go:580-667 | from every unsettled state an allowed step strictly decreases the distance: the end of a deletion, or one reconcile in which nothing fails |
| `MigrationDiscipline.StaleAttemptConverges` | controllers/migration_job.go:580-707 | in any run with a stable key that has as many helpful steps as the distance, failing calls and checks and disabled reconciles in between included, there comes to be a live Job that carries the current key, or the stale one has completed meanwhile |
| `MigrationDiscipline.ReplacedAttemptCarriesKey` | controllers/migration_job.go:580-707 | in the same runs, once the stale Job is terminating or gone, it is a live Job with the current key |
| `EnvNames.TrimAndCollapseToUnderscore` | pkg/config/secret.go:383-399 | the builder loop with its flag and the final trim give the alphanumeric runs joined by single underscores |
| `EnvNames.NormalizeField` | pkg/config/secret.go:377-381 | upper-casing, collapsing and prefixing give `NormalizeEnvVarField` |
| `EnvNames.NormalizedIsEnvVarName` | pkg/config/secret.go:376-409 | every normalised string matches the regular expression and has no two adjacent underscores |
| `EnvNames.BuiltNameIsEnvVarName` | pkg/config/secret.go:339-342 | every name built from a provider ID and a field of the alphabet matches the regular expression |
| `EnvNames.NormalizerIsIdempotent` | pkg/config/secret.go:376-409 | normalising twice is normalising once |
| `EnvNames.NormalizerCollisions` | pkg/config/secret.go:376-409 | two strings share a normal form exactly when their upper-cased alphanumeric runs are equal |
| `EnvNames.DistinctIDsMayCollide` | pkg/config/secret.go:376-409 | two different IDs with the same normal form |
| `EnvNames.NormalFormKeepsAlphaNums` | pkg/config/secret.go:376-409 | the normal form has the letters and digits of the upper-cased string, all of them, in order |
| `EnvNames.UpperExactly` | pkg/config/secret.go:376-381 | upper-casing an ASCII string changes its small letters and nothing else |
| `ProviderTypes.DeriveSliceIDsInto` | api/v1beta1/provider_types.go:104-110 | the loop fills the slice with the derived IDs in order |
| `Strings.SortedKeys` | pkg/config/secret.go:286-298 | sorting the keys of a map visited in any order gives the one increasing list of them |
| `Secrets.CollectCustomProviderSecrets` | pkg/config/secret.go:286-298 | one variable for each secretRefs key, in key order, with the normalised key as field |
| `Secrets.CollectSlice` | pkg/config/secret.go:103-139 | a range loop of the walk appends the secrets of its slice after those already collected |
| `Secrets.CollectInferenceSecrets` | pkg/config/secret.go:103-139 | the inference walk, which leaves out Vertex AI |
| `Secrets.CollectVectorIOSecrets` | pkg/config/secret.go:159-186 | the vector I/O walk |
| `Secrets.CollectToolRuntimeSecrets` | pkg/config/secret.go:188-207 | the tool runtime walk, which leaves out MCP and file search |
| `Secrets.CollectFilesSecrets` | pkg/config/secret.go:209-231 | the files walk |
| `Secrets.CollectFileProcessorsSecrets` | pkg/config/secret.go:233-249 | the file processors walk |
| `Secrets.CollectCustomSecretsFromSlices` | pkg/config/secret.go:275-284 | the walk of batches and responses |
| `Secrets.CollectProviderSecrets` | pkg/config/secret.go:75-101 | all seven walks in API order |
| `Secrets.AddUniqueEnvVars` | pkg/config/secret.go:64-70 | keeps the entries of the given map and adds the first variable of each new name |
| `Secrets.CollectInto` | pkg/config/secret.go:35-62 | collecting, keeping the first of each name and sorting give `CollectSecretRefs` |
| `Secrets.CollectedSortedByName` | pkg/config/secret.go:35-51 | the result is strictly increasing by name, holds raw references only and covers every name |
| `Secrets.FirstOfNameIsCollected` | pkg/config/secret.go:35-70 | of several references with one name the first of the walk is listed |
| `Secrets.ValidateSecretRefEnvVarNames` | pkg/config/secret.go:350-374 | reports nothing exactly when all names are valid and no name is used for two Secret keys; otherwise the first reference at fault |
| `Secrets.NamesAreAlwaysValid` | pkg/config/secret.go:350-356 | the regular expression refuses no generated name, so that error branch is dead |
| `Secrets.DeclaredIsWalked` | pkg/config/secret.go:72-101 | every declared provider is walked by the collector of its API or has no secret to collect |
| `Secrets.DeclaredIsCollected` | pkg/config/secret.go:53-62 | what the collector takes from any declared provider is among the raw references |
| `Secrets.CollectedOnce` | pkg/config/secret.go:35-51 | in a spec that passed the check, a raw reference is the only collected entry of its name |
| `Providers.ExpandBedrockProvider` | pkg/config/provider.go:195-220 | setting the four secret slots one by one gives the expansion of the provider |
| `Providers.ExpandCustomProvider` | pkg/config/provider.go:288-313 | visiting both maps in any order gives the config, a settings error, or a conflict exactly when a key is in both, naming one that is |
| `Providers.AppendCustomProviders` | pkg/config/provider.go:129-138 | appends the expansions in order, or stops at the first error |
| `Providers.ExpandInferenceProviders` | pkg/config/provider.go:89-127 | the inference section in its order, first error returned |
| `Providers.ExpandVectorIOProviders` | pkg/config/provider.go:315-337 | the vector I/O section in its order |
| `Providers.ExpandToolRuntimeProviders` | pkg/config/provider.go:501-526 | the tool runtime section in its order |
| `Providers.ExpandFilesProviders` | pkg/config/provider.go:578-597 | the files section in its order |
| `Providers.ExpandBatchesProviders` | pkg/config/provider.go:639-655 | the batches section in its order |
| `Providers.ExpandResponsesProviders` | pkg/config/provider.go:672-688 | the responses section in its order |
| `Providers.ExpandFileProcessorsProviders` | pkg/config/provider.go:705-733 | the file processors section in its order |
| `Providers.ExpandProvidersInto` | pkg/config/provider.go:32-51 | the map of all configured sections that list a provider, or the first error tagged with its API |
| `Providers.ExpandersAreTheConfiguredApis` | pkg/config/provider.go:53-87 | one expander for each configured API and no other |
| `Providers.SectionExpansion` | pkg/config/provider.go:89-138 | a section expands exactly when each provider does, entry by entry |
| `Providers.ExpansionIsComplete` | pkg/config/provider.go:32-87 | every declared provider has its entry under its API, and every entry is the expansion of a declared provider |
| `Providers.ExpansionSucceedsExactly` | pkg/config/provider.go:288-313 | expansion succeeds exactly when no declared custom provider has unreadable settings or a key in both maps |
| `Providers.ExpandedEntry` | pkg/config/provider.go:140-313 | the entry of each provider kind has the literal provider type, the given ID or the kind's default; that of a custom provider has its own type, exactly its secret and settings keys, and each setting's value |
| `Providers.ColonsReplaced` | api/v1beta1/provider_types.go:67-72 | the default ID of a custom provider of type scheme::name is scheme-name |
| `Providers.ExpansionErrorNamesAFault` | pkg/config/provider.go:288-313 | an expansion error names an API and a declared provider of it that has the reported fault |
| `Compiler.AcceptedExactly` | pkg/config/secret.go:349-374 | a spec is accepted exactly when no two references share a name and mean different keys, and every declared provider expands |
| `Compiler.Agreement` | pkg/config/provider.go:140-313 | for every provider kind, the reference emitted for a declared secret names a variable the collector gives for that very Secret key |
| `Compiler.ProviderSecretsArrive` | pkg/config/secret.go:72-101 | compiler correctness: in an accepted spec every secret declared on a provider, of any kind under any API, has its entry, and the emitted reference stands for exactly the declared Secret key |
| `Compiler.EmittedReferencesResolve` | pkg/config/provider.go:53-87 | nothing dangles: every emitted config key is a custom provider's own setting or stands for the declared Secret key |
| `Compiler.DeclaredProvidersArrive` | pkg/config/provider.go:53-87 | in an accepted spec every declared provider has an entry of its type and ID under its API, a custom one with all its settings, and every entry is that of a declared provider |
| `Compiler.EmittedName` | pkg/config/secret.go:339-347 | the emitted reference of any secret, typed or custom, is OGX, the normalised ID and the normalised config key |
| `Compiler.OnlyDeclaredSecretsAreExposed` | pkg/config/secret.go:53-62 | every variable of the Deployment belongs to a secret declared on a provider or a storage backend |
| `Compiler.RedisPasswordArrives` | pkg/config/storage.go:53-67 | the password reference of a redis backend stands for the declared key |
| `Compiler.PostgresConnectionArrives` | pkg/config/storage.go:69-79 | so does the connection string of a postgres backend that declares one |
| `Compiler.PostgresReferenceDangles` | pkg/config/storage.go:69-79 | for the expander alone, without the admission rule that requires one: the reference dangles exactly when no variable happens to have its name |
| `Webhook.CollectAllProviderIDs` | api/v1beta1/ogxserver_webhook.go:230-248 | the known IDs, and one error for each repeated occurrence |
| `Webhook.RepeatsExactly` | api/v1beta1/ogxserver_webhook.go:236-246 | the duplicate errors are those of exactly the positions whose ID occurred before, in order |
| `Webhook.ValidateProviderReferences` | api/v1beta1/ogxserver_webhook.go:258-276 | the positions of the models whose explicit provider is not configured |
| `Webhook.UnknownReferencesExactly` | api/v1beta1/ogxserver_webhook.go:263-273 | the errors are exactly the positions of models that name a provider nobody configured, in order |
| `Webhook.MergeProvidersInto` | pkg/config/merge.go:40-57 | user sections replace base sections API by API |
| `Webhook.MergedExactly` | pkg/config/merge.go:40-57 | API by API: entries of exactly the declared providers where the spec declares one, and otherwise the base's section as it is |
| `Webhook.TraversalsAgree` | api/v1beta1/provider_types.go:89-94 | `ProvidersSpec.IDs` equals, as a list, the provider_ids of the expansion concatenated in API order |
| `Webhook.NoDuplicateMeansDistinctInConfig` | api/v1beta1/ogxserver_webhook.go:230-256 | the webhook reports no duplicate exactly when the user's provider_ids in the config are distinct |
| `Webhook.AcceptedReferenceIsExpanded` | api/v1beta1/ogxserver_webhook.go:258-276 | an accepted explicit model reference names a provider in the merged config, whatever the base holds |
| `Storage.StorageSection.ApplyPraxisVectorStoreMetadata` | pkg/config/generator.go:405-432 | the rewrite in place equals `WithVectorStores` of the old tree |
| `Storage.SqlBackendNameOf` | pkg/config/generator.go:437-459 | whatever the enumeration order, the preferred backend if it is SQL, else the least SQL backend by name |
| `Storage.BackendIsFound` | pkg/config/generator.go:437-469 | exactly when a backend is found, and that it is an SQL backend of the tree |
| `Storage.SQLBackendsExactlyByType` | pkg/config/generator.go:461-469 | a backend is SQL exactly when the type under its path begins with sql_ |
| `Storage.StoresAreReadByPaths` | pkg/config/generator.go:415-426 | when the store is declared and when the stores are malformed, read off the paths of the tree |
| `Storage.EmptyNameHidesBackends` | pkg/config/generator.go:437-459 | an SQL backend with the empty name hides every other but the preferred one, and nothing is declared |
| `Storage.VectorStoresAfterRewrite` | pkg/config/generator.go:405-432 | the store is declared afterwards exactly when it was before, or there is a provider, a usable SQL backend and a place to declare it |
| `Storage.NullStoresBlockTheRewrite` | pkg/config/generator.go:415-422 | a null stores section blocks the declaration, which the tree without that section gets exactly when it has a usable backend |
| `Storage.AddedEntryNamesSQLBackend` | pkg/config/generator.go:386-432 | an added entry holds the table openai_vector_stores in an SQL backend of the same tree |
| `Storage.RestIsUnchanged` | pkg/config/generator.go:405-432 | every path outside storage.stores.vector_stores keeps what it held |
| `Storage.ChangedOnlyToDeclare` | pkg/config/generator.go:405-432 | the tree changes exactly when the rewrite declares a store that was not declared |
| `Storage.RewriteIsIdempotent` | pkg/config/generator.go:405-432 | rewriting twice is rewriting once |
| `Storage.GeneratedStoresAreBacked` | pkg/config/storage.go:27-114 | every store of a generated section names an existing backend of the kind it needs |
| `Storage.KVBackendExactly` | pkg/config/storage.go:53-86 | a redis backend has its host and, when declared, the password reference and nothing else; any other kind is the built-in file |
| `Storage.SQLBackendExactly` | pkg/config/storage.go:69-93 | a postgres backend has the connection reference; any other kind is the built-in file |
| `Storage.DefaultStoresExactly` | pkg/config/storage.go:95-114 | the four default stores with their namespaces and tables |
| `Storage.GeneratedSectionTakesVectorStores` | pkg/config/generator.go:405-432 | on a generated section the rewrite adds the store on sql_default to the others |
| `Storage.RewrittenStoresAreBacked` | pkg/config/generator.go:405-432 | and afterwards every store is still backed |
| `Generator.AppendIfMissingInto` | pkg/config/generator.go:221-230 | appends unless present; the caller's slice is not changed |
| `Generator.EffectiveDisabledAPIsInto` | pkg/config/generator.go:171-180 | the effective list, with the caller's slice unchanged |
| `Generator.DisabledExactly` | pkg/config/generator.go:171-180 | exactly the user's choice, and in Praxis mode the two APIs Praxis serves |
| `Generator.DisabledAddsOnce` | pkg/config/generator.go:171-180 | the user's list is a prefix of the effective one, and nothing in it is added again |
| `Generator.MergeAPIsInto` | pkg/config/merge.go:73-88 | the loop keeps the base APIs that are not disabled |
| `Generator.KeptPositions` | pkg/config/generator.go:193-217 | the kept list is all surviving entries at strictly increasing positions |
| `Generator.FiltersAgree` | pkg/config/generator.go:193-217 | on lists of names both filters keep the same entries |
| `Generator.ConfigTree.FilterAPIList` | pkg/config/generator.go:193-217 | filters in place when something survives, else leaves the tree alone and says so |
| `Generator.ConfigTree.GeneratePraxisDefaultConfig` | pkg/config/generator.go:117-166 | server auth and port, storage rewrite and API filter in sequence, or the server error |
| `Generator.FilteredDefaultConfigIsHonest` | pkg/config/generator.go:141-164 | a true PraxisAPIsFiltered means a non-empty list that serves neither responses, conversations nor a disabled API; a false one leaves the list as it was |
| `Generator.DefaultConfigKeepsTheRest` | pkg/config/generator.go:109-139 | sections other than server, storage and apis, and server keys other than auth and port, come through unchanged |
| `Generator.DefaultConfigIsSecured` | pkg/config/generator.go:117-139 | the derived config has Praxis auth in place of any other and the given port, or the base's; it is refused exactly when the server is neither an object nor null |
| `Generator.FilteredDefaultConfigExactly` | pkg/config/generator.go:141-217 | the flag is set exactly when there is a list and some entry of it stays; then the new list is those entries in order |
| `Generator.DefaultConfigDeclaresVectorStoresExactly` | pkg/config/generator.go:138-141 | exactly when the derived config declares the vector store, for any storage section of the base |
| `Generator.BuildServerSectionInto` | pkg/config/generator.go:323-337 | copying the base's section in any order, then auth and port, gives the server section |
| `Generator.ServerSectionExactly` | pkg/config/generator.go:323-337 | Praxis auth in Praxis mode; the spec's port, else the base's, else 8321; everything else as in the base |
| `Generator.GeneratedAPIsExactly` | pkg/config/merge.go:73-88 | the final list exists exactly when a base API stays, and is those that stay, in order |
| `Generator.StorageComesFromSpecFirst` | pkg/config/merge.go:61-71 | the spec's storage replaces the base's as a whole, which serves only where the spec has none |
| `Generator.FilteredFlagIsHonestWhenSomethingSurvives` | pkg/config/generator.go:97-106 | in GenerateConfig a true flag is honest exactly when some base API survives |
| `Generator.FilteredFlagCanMislead` | pkg/config/generator.go:250-252 | a base that lists only responses: the flag is true, the list is omitted and everything is served |
| `Generator.GeneratedConfigDeclaresVectorStoresExactly` | pkg/config/generator.go:232-265 | for storage of the spec, of the base or none, exactly when the final config declares the vector store |
| `Generator.GeneratedConfigDeclaresVectorStores` | pkg/config/generator.go:232-265 | with storage in the spec and a vector_io provider, the final config declares the vector store on the generated SQL backend |
| `LruCache.Cache.Get` | pkg/config/resolver.go:131-141 | value and new order equal the abstract cache's, map and list still agreeing |
| `LruCache.Cache.Set` | pkg/config/resolver.go:143-160 | so do those of a set, with at most 64 entries and no nil element reached |
| `LruCache.Cache.EvictOldest` | pkg/config/resolver.go:152-157 | the full cache drops exactly the last slot of the list |
| `LruCache.OperationsOnValues` | pkg/config/resolver.go:131-160 | a get changes no value; a set changes its key's and drops at most the last slot |
| `LruCache.OperationsKeepWellFormed` | pkg/config/resolver.go:131-160 | distinct keys and the bound of 64 are kept |
| `LruCache.CacheHoldsTheLatestUsed` | pkg/config/resolver.go:120-160 | after any run the cache holds the keys in order of last use, all or the first 64, so eviction takes the least recently used |
| `LruCache.GetKeepsHeld` | pkg/config/resolver.go:131-141 | a get moves the slots ahead of a key by one place at most |
| `LruCache.SetKeepsHeld` | pkg/config/resolver.go:143-160 | storing another key does too, and cannot evict a key while fewer than 64 others are in use |
| `Resolver.ConfigResolver.ResolveImage` | pkg/config/resolver.go:63-107 | result and cache of one call, with every error branch |
| `Resolver.CacheIsCoherent` | pkg/config/resolver.go:73-111 | in every reachable state the cache holds only digest-pinned references, each with the config fetching gives |
| `Resolver.ResolveIsTransparent` | pkg/config/resolver.go:73-111 | a pinned reference resolves to what fetch and decode give; a mutable tag always refetches |
| `Resolver.PinnedIsServedAgain` | pkg/config/resolver.go:73-105 | what a pinned reference resolved to is served again, whatever the registry answers by then, while fewer than 64 other references were asked for in between |
| `Resolver.PinnedExactly` | pkg/config/resolver.go:109-111 | a reference is pinned exactly when it can be split at @sha256: |
| `Resolver.ConfigExactly` | pkg/config/resolver.go:28-105 | the config is the decoded text of the label the default-config label names; otherwise the error names the label at fault |
| `Resolver.ResolveNeedsImageAndFetcher` | pkg/config/resolver.go:63-71 | an empty image and a missing fetcher give their own errors and leave the cache alone |
| `GoQuote.QuoteRoundTrip` | controllers/migration_job.go:483-496 | strconv.Quote as the fallbacks use it is read back exactly, whatever follows and whichever runes are printable |
| `GoQuote.PlainTextIsQuotedAsIs` | controllers/migration_job.go:483-496 | printable text without quotes and backslashes is quoted as it is |
| `GoQuote.EscapesAreShort` | controllers/migration_job.go:483-496 | every other character has the escape form of its range |
| `AttemptKey.MigrationAttemptText` | controllers/migration_job.go:392-416 | the text built piece by piece, or the first missing object |
| `AttemptKey.TextExactly` | controllers/migration_job.go:392-496 | the text spelled out, for any attempt |
| `AttemptKey.AttemptExactly` | controllers/migration_job.go:392-523 | there is an attempt exactly when all named objects exist and the image is known; otherwise the error names the first that is missing |
| `AttemptKey.Builder.AppendSecretAttemptKey` | controllers/migration_job.go:443-459 | name, key and fingerprint of a Secret key |
| `AttemptKey.Builder.AppendConfigAttemptKey` | controllers/migration_job.go:461-481 | the config path, or name, key and fingerprint of a ConfigMap key |
| `AttemptKey.Builder.AppendFallbackAttemptKey` | controllers/migration_job.go:483-496 | the two quoted fallbacks, each only when given |
| `AttemptKey.DecodeText` | controllers/migration_job.go:392-496 | a decoder inverts the encoding for names and keys without separators and an image without a semicolon |
| `AttemptKey.TextIsInjective` | controllers/migration_job.go:392-496 | so equal texts mean equal attempts |
| `AttemptKey.KeysIdentifyAttempts` | controllers/migration_job.go:392-528 | as long as the hashes do not collide, equal keys mean the same objects, image and fallbacks, and objects whose named keys read as the same bytes, binary data first and a missing key as empty, and conversely |
| `AttemptKey.TextsAgreeExactly` | controllers/migration_job.go:392-496 | whatever the images hold, two texts with clean names and keys are equal exactly when source, target and config are and image plus fallbacks read the same together |
| `AttemptKey.ImageWithSemicolonIsAmbiguous` | controllers/migration_job.go:410-415 | one image with a semicolon that imitates a fallback tenant |
| `Shell.FeedShellQuote` | controllers/migration_job.go:70-72 | in any context outside quotes a quoted value adds exactly the value to the current word |
| `Shell.ShellRoundTrip` | controllers/migration_job.go:70-72 | a quoted value reads back as the single word it quotes exactly when it holds no NUL |
| `Shell.MigrationCommandsAgree` | controllers/migration_job.go:54-68 | the line reads as set -eu and two commands, spelled out, with each given fallback value as one argument, differing by --dry-run only |
| `Shell.NulIsUnreadable` | controllers/migration_job.go:54-68 | a NUL in a fallback leaves no reading |
| `Adoption.Cluster.ScaleDownLegacyDeployment` | controllers/legacy_adoption.go:334-374 | scales to zero unless already there, and tells whether labelled pods remain |
| `Adoption.Cluster.DetachAndLabelPVC` | controllers/legacy_adoption.go:208-252 | refuses an unexpected controller, else strips controllers and sets both labels |
| `Adoption.Cluster.AdoptStorageSource` | controllers/legacy_adoption.go:160-203 | skip, already adopted, requeue, failure or adoption, with the state each leaves |
| `Adoption.Cluster.ResolveEffectivePVCName` | controllers/legacy_adoption.go:579-611 | annotation first, then an error if the list fails, then the single labelled PVC, an error for several, else the default |
| `Adoption.AdoptionWaitsForRelease` | controllers/legacy_adoption.go:160-203 | at most the one PVC changes, only with the Deployment gone or at zero without labelled pods, and it keeps no controller |
| `Adoption.AdoptionSucceedsExactly` | controllers/legacy_adoption.go:160-252 | exactly when a fault-free adoption succeeds, in terms of the PVC's label, its first controller, the Deployment and the pods |
| `Adoption.LegacyIsScaledDown` | controllers/legacy_adoption.go:334-360 | a present Deployment of an unadopted PVC is scaled to zero whenever the reads and the patch succeed, whatever the pods; no other Deployment changes |
| `Adoption.AdoptionAnswers` | controllers/legacy_adoption.go:160-252 | exactly when adoption skips and when it waits, and that a refusal names the first controller, which is a stranger |
| `Adoption.DetachesWhenReleasable` | controllers/legacy_adoption.go:208-215 | detaching is allowed exactly when the first controller, if any, is the legacy distribution itself |
| `Adoption.OthersKeepTheirPlaces` | controllers/legacy_adoption.go:217-225 | detaching takes out the controllers and nothing else, in place |
| `Adoption.AdoptionComesAbout` | controllers/legacy_adoption.go:160-252 | progress: a fault-free reconcile, the end of the legacy pods and another fault-free reconcile adopt the PVC when its controller allows it |
| `Adoption.OnlyOnRequest` | controllers/legacy_adoption.go:47-83 | adoption is attempted exactly for a usable annotation; without one nothing changes |
| `Adoption.ValidNamesMatch` | api/v1beta1/ogxserver_types.go:834-848 | an annotation is accepted exactly when it matches the regular expression |
| `Adoption.EffectiveVolume` | controllers/legacy_adoption.go:579-611 | case by case: the annotated volume, the one that is labelled, an error when two are, else the default |
| `Adoption.OwnVolumeExactly` | controllers/ogxserver_controller.go:270-278 | the default PVC is created exactly when storage is asked for and it is the effective one |
| `Adoption.AdoptionEstablishes` | controllers/legacy_adoption.go:160-252 | a successful adoption establishes the continuity invariant, with the owners that are no controllers left |
| `Adoption.RunKeepsAdoption` | controllers/legacy_adoption.go:43-83 | the invariant survives reconciles of any server, annotation changes, recreation, legacy workloads and PVC creation or collection |
| `Adoption.StorageContinuity` | controllers/ogxserver_controller.go:270-278 | over any such run the effective PVC stays the adopted one and the default stays excluded, exactly unless the annotation names the server itself |
| `Adoption.SameNameAnnotationSwitchesVolume` | controllers/legacy_adoption.go:97-122 | a same-name annotation adopts nothing but switches the server to its default PVC |
| `Adoption.AdoptedMeansHeldExactly` | controllers/legacy_adoption.go:160-203 | a reported adoption gives the server the volume exactly when it did not carry the label of this source yet or carried it for this server |
| `Adoption.AnnotationRemovalKeepsHeldVolume` | controllers/legacy_adoption.go:579-611 | after the annotation is removed the server stays on the volume in exactly those cases, else falls back to its default |
| `Adoption.SecondAdopterKeepsNothing` | controllers/legacy_adoption.go:176-181 | so a second server is told the PVC is adopted, yet loses it with its annotation |

## Left out

- Kubernetes client, caches, watches, leader election, RBAC and event transport: an API call is its outcome, a stale cache read is not modelled, and object garbage collection appears only as a step of `Adoption`.
- Concurrent reconciles of one object: each reconcile of the migration and of adoption reads one snapshot and one clock value; the garbage collection is the part that is split into single API calls.
- ConfigMapReconciler.Cluster.CleanupOldGeneratedConfigMaps: takes what the list call answers as a parameter, so the label selector is not part of it.
- The step system of `ConfigMapGC` assumes that only the reconciler creates and deletes generated ConfigMaps; another writer appears in `ConfigMapReconciler` only.
- MigrationDiscipline.StaleAttemptConverges: lets a Job appear between read and create only with the current key, as another reconcile of the same server creates it; for any other Job the run starts over with that one as the stale attempt.
- Message texts: fixed texts of the migration code are constructors applied to the names they are formatted with; error texts of the compiler and the resolver keep only what they identify.
- Migration preflight checks: their verdict is an input of the reconcile.
- Provider fields that hold no secret (endpoints, timeouts, chunk sizes, network settings, vector-store settings): a typed provider keeps its ID and its secret slots.
- Providers.ExpandBedrockProvider: sets the four secret slots only, for the same reason.
- Compiler.PostgresReferenceDangles: is about a spec the API server refuses (the validation rule at api/v1beta1/ogxserver_types.go:190).
- Nil and empty provider maps: both are the empty map, which `MergeProviders` treats alike.
- Providers.ExpandCustomProvider: leaves open which of several conflicting keys the error names, because map iteration order decides.
- `${env...}` strings a user writes into settings or the base config, and workload environment overrides.
- Generator.ConfigTree.GeneratePraxisDefaultConfig: speaks of the parsed tree; YAML parsing and writing, the content hash and the counters are not part of it. A nested map is replaced where the code updates it through a shared reference, so aliasing between the base config and the result is not captured.
- `GenerateConfig` beyond apis, providers, storage and the server section: version, distribution name, registered resources and models. `Generator.BuildServerSectionInto` stands beside `Generator.GenerateConfig` rather than inside it.
- LruCache.Cache.Get: does not model the mutex (each call is atomic) or the type assertion on list elements, which hold entries only.
- Resolver.ConfigResolver.ResolveImage: takes what the registry answers during the call as a parameter; OCI over HTTP is not part of this model.
- GoQuote.QuoteRoundTrip: is about valid UTF-8 strings, which is what the API server stores.
- The shell reader covers quotes, blanks, `;`, `&&` and `$NAME` in double quotes and fails on every other special character, which the command line never has outside quotes.
- EnvNames.NormalizeField: treats upper-casing outside a to z as far as it can produce an ASCII letter.
- Networking adoption, Ingress, NetworkPolicy, autoscaling, probes and pod assembly, Kustomize rendering, TLS, and the `ogx-module` binary.
