# krop in Dafny

krop turns a provider's blueprint (a graph of resources) into an API that consumers
bind, and then materialises every consumer's instance of it as objects in three
places: the consumer's workspace, the provider's workspace and a host cluster. This
project models the parts of krop that have to cooperate for that to be safe, and
proves what they guarantee together:

* **One reconcile pass** (`Stores`, `Engine`, `EngineLaws`, `EngineWrites`, `Reconciler`,
  `Pass`, `PassOutcome`, `SecondPass`):
  the engine's node walk, the applier decorators, the liveness record, pruning and
  the finalizer path, as methods over stores whose every call may fail, or take effect
  and still report failure. The methods are proved against a failure-free walk, and
  the walk's laws (what is written and observed, exactness, idempotence, prefixes) are
  proved as lemmas.
* **The lifecycle protocol** (`Lifecycle`, `LifecycleSafety`, `LifecycleTheorems`,
  `LifecyclePrune`, `LifecycleFinalizer`, `LifecycleSweep`, `LifecycleRace`,
  `LifecycleLoss`): every client call of every instance worker and of the sweeper is a
  step; steps of users, other controllers, all workers and the sweeper interleave
  freely, and a worker may be cut off after any call. An invariant kept by every step
  gives the safety theorems over all runs.
* **The orphan sweeper** (`SweepTiming`, `Sweeper`, `SweepSafety`, `SweepDeadline`): the
  heartbeat against the staleness threshold in real time, with restarts, unbinding, and time
  stamps cut to whole seconds as section 5.6 of RFC 3339 without a fraction; the sweep
  itself as methods; whom it spares and what of a pass it undoes; and the deadline by
  which an orphan is gone.
* **Publish and serve** (`Publish`, `PublishSafety`, `PublishStops`, `PublishFresh`,
  `PublishApi`, `PublishTheorems`, `PublishRuns`, `PublishRemains`, `Supervisor`,
  `Registrar`, `RegistrarPass`): the registrar's worker, the graph cache, the registry of served
  blueprints, the supervisor's generations of managers, edits, deletions and process
  restarts. The registrar and the supervisor are also written as classes whose methods
  are proved to take exactly the machine's steps.
* **The pure cores** (`Naming`, `GvkCodec`, `Routing`, `Claims`, `Text`): derived
  names, the list of kinds inside a liveness record, target routing and permission
  claims.

Two shapes recur. A *machine* is a `State`, a `Step` and a function `Do`; disabled
steps change nothing, `Exec` folds any sequence of steps, and a theorem over runs
quantifies over all sequences. A *session* is a class of client calls with a `fails`
or `lost` choice inside and a ghost count of the calls that failed; methods that use it
promise an exact result on success, an explicit partial result on failure, and failure
only if a call failed.

Assumptions, all stated in the contracts: SHA-256 and the spec hash are arbitrary
functions that tell apart the finitely many inputs a run uses (never injective in
general); kro's graph building and its node operations are deterministic functions of
what they are given; the three stores are distinct; one worker handles one key at a
time; reads are live and Delete takes effect at once; nobody but krop stamps krop's
labels, and nobody but krop takes its finalizer off.

## Where the code is weaker than its documentation

Each of these comes with a run or an input that shows it and with the theorem that says
when the code does keep the promise.

* A delete call names an object, not a version of it, so a worker can delete what another
  instance has taken over since it was listed
  (`LifecycleRace.PruneCanDeleteAStrangersChild`), or what somebody has stripped of its
  label (`LifecycleRace.PruneCanDeleteTheUnlabelled`). Nothing else is ever lost
  (`LifecycleTheorems.OnlyTakenOverIsLost`), so labels left alone it happens if and only
  if another instance renders the object (`LifecycleRace.DeletesOnlyOwnExactly`). The same
  holds of the sweeper (`LifecycleSweep.SweepCanDeleteAStrangersChild`,
  `LifecycleSweep.SweepDeletesOthersExactly`).
* Child names contain neither the instance's namespace nor its blueprint, so namesakes in
  one workspace can take over and remove each other's children
  (`LifecycleRace.NamesakeTakesOverAndRemoves`); outside the consumer workspaces nobody
  else can (`LifecycleTheorems.ApplyOverwritesNoOther`,
  `LifecycleTheorems.WorkerRemovesNoOther`).
* If ConfigMap is a provider child kind, a complete pass deletes the liveness record it
  has just written, and only then (`Pass.RecordSurvivesPrune`); and the sweeper can
  remove the record before the other children
  (`LifecycleLoss.SweepCanRemoveTheRecordFirst`). If its next call then fails
  (`LifecycleLoss.FailingSweepAbandons`), no later sweep ever reclaims them
  (`LifecycleLoss.AbandonedForGood`). Without ConfigMaps the record goes last
  (`LifecycleTheorems.SweptRecordLeavesNoChild`).
* The claim merge indexes the first claim without checking that there is one, so a graph
  without any foreign consumer-target resource makes the pass panic; the union of verbs
  it computes is never stored, and the result is right only because writable claims come
  first and the sort is stable (`Claims.MergeClaims`, `Claims.PublishedClaims`).
* The staleness threshold is safe if and only if it is at least the refresh gap, plus the
  time between reading the clock and committing the record (a gap at most), plus one
  second (`SweepTiming.MarginIsExact`).
* An instance that was bound for a gap or less when a sweep began, or comes back during
  it, can lose its children (`SweepTiming.RebindingRacesTheSweep`); one bound for longer
  cannot.
* A publish whose status write is lost, followed by an edit back, leaves the withdrawn
  graph being served (`PublishRuns.LostStatusServesStale`); if status writes commit it
  does not happen (`PublishTheorems.IdleServesObserved`), and whether or not they do, it
  happens if and only if two specs of one type build or route differently
  (`PublishRemains.FreshnessExactly`). If the very first status write
  is lost and the blueprint deleted, its offering stays for good
  (`PublishRuns.UnnamedOfferingIsLeft`, `PublishRuns.LeftoverStays`).
* An edit that renames the generated type leaves the old export and its manager behind
  (`PublishRuns.RenamedExportIsLeft`), and one that keeps the type leaves the old schema
  behind (`PublishRuns.SupersededSchemaIsLeft`); with publishes going through, nothing
  else leaves exports or schemas behind (`PublishRemains.NothingUnnamedExactly`,
  `PublishRemains.NothingUnreferencedExactly`).
* The comment in `internal/registrar/publish.go` says that schemas are deleted first so
  that no export references a missing schema. The order is what lets one
  (`PublishRuns.WithdrawalLeavesExportDangling`), though only during the withdrawal
  (`PublishTheorems.DanglingOnlyInWithdrawal`); what it gives is that a withdrawal can be
  retried (`PublishTheorems.WithdrawalIsRetryable`,
  `PublishRuns.RetriedWithdrawalCompletes`).
* An engine error returns before the liveness record is written, so such a pass is no
  refresh (`Pass.ApplyPass`).

## Model

| member | source | states |
|---|---|---|
| `Naming.ProviderChildNameIsDns` | internal/engine/naming.go:40-55 | for DNS-1123 inputs a DNS-1123 subdomain of at most 253 characters: cluster-instance-original or, if too long, a prefix of it with only hyphens and dots trimmed, a hyphen after an alphanumeric, and the first 12 characters of the hash of the null-joined tuple |
| `Naming.HashInputInjective` | internal/engine/naming.go:40-41 | the null-joined hash input determines the (cluster, instance, original) tuple |
| `Naming.ProviderChildNameInjective` | internal/engine/naming.go:40-55 | two tuples share a child name only if the digest collides on their distinct hash inputs |
| `Naming.DnsChildNamesInjective` | internal/engine/naming.go:40-55 | the same outright for DNS-1123 inputs |
| `Naming.LivenessRecordNameIsDns` | internal/engine/naming.go:61-65 | 26 characters, a DNS-1123 subdomain: krop-live- and the first 16 characters of the hash of cluster and uid |
| `Naming.LivenessRecordNameInjective` | internal/engine/naming.go:61-65 | records of two instances share a name only if the digest collides |
| `Naming.ChildNameIsNoRecordName` | internal/engine/naming.go:40-65 | no child is ever named like a liveness record, for every digest |
| `GvkCodec.ParseTokenExact` | internal/controller/sweeper.go:266-273 | a token parses to a kind if and only if it is that kind's token and the kind can be printed unambiguously |
| `GvkCodec.PaddingIsSkipped` | internal/controller/sweeper.go:236-246 | space before or after a token does not matter to the sweeper |
| `GvkCodec.GvkStringRoundTrip` | internal/controller/reconciler.go:491-499 | what the sweeper visits for a recorded list is that list: same kinds, same order, none skipped, the empty list included |
| `Routing.ToKro` | api/v1alpha1/routing.go:43-58 | exactly the non-nil resources, in order, and exactly the declared non-empty targets, the last one per id |
| `Routing.TypedRouting` | internal/registrar/registrar.go:156-163 | fails exactly when some entry is none of "", "consumer", "provider" and "host", and otherwise types every entry as it says |
| `Routing.ResolveRouting` | internal/engine/route.go:40-60 | with unique ids the spec is rejected exactly when some resource writes another target than these four, and otherwise every consumer of the map resolves "" and "consumer" to the consumer, "provider" to the provider and "host" to the host |
| `Claims.StableSortSound` | internal/registrar/claims.go:63-76 | the sort is ordered, a permutation, and stable per key |
| `Claims.ForeignConsumerGRs` | internal/registrar/claims.go:117-144 | for every iteration order, without duplicates, exactly the foreign consumer-target resources written and exactly those read |
| `Claims.DeriveClaims` | internal/registrar/claims.go:41-60 | sorted, one claim per resource with the verbs and the identity of that resource |
| `Claims.MergeClaims` | internal/registrar/claims.go:63-87 | panics exactly on no claims; otherwise strictly sorted and for each resource exactly the first claim given for it |
| `Claims.PublishedClaims` | internal/registrar/registrar.go:180-184 | strictly sorted, exactly the foreign consumer-target resources, create-read-update-delete exactly when a template uses the resource, panic exactly when there is none |
| `Claims.ClaimsAreExact` | internal/registrar/claims.go:31-144 | a type is claimed exactly when some node works on it in the consumer workspace and it is not the own type; with get, list and watch alone, or with create, update, patch and delete too exactly when such a node is a template; with the identity found for it; in byte order of group and resource |
| `Claims.ClaimsAreDetermined` | internal/registrar/claims.go:63-87 | two results for the same graph are equal, so map iteration order does not matter |
| `Claims.ValidateClaims` | internal/registrar/claims.go:95-105 | rejects exactly when a non-core claim has no identity, naming the first such |
| `Stores.ReapKinds` | internal/controller/reconciler.go:359-393 | list-and-delete: on success exactly the labelled objects of the kinds outside the kept set are gone, on failure some of them, nothing else, and only list and delete calls on these kinds |
| `Engine.Apply` | internal/engine/apply.go:64-191 | the decorator chain writes one object, the one the chain's specification gives, and records it in the sink exactly when the write is reported as done |
| `Engine.Reconcile` | internal/engine/engine.go:60-192 | without an error, stores, sinks and flags are exactly those of the failure-free walk; with one, the writes are a prefix of that walk's; without a failing call there is an error exactly when the walk itself ends in one; every call is one its node asks for |
| `EngineWrites.WalkWrites` | internal/engine/engine.go:60-192 | a walk has written the objects of the nodes on its way, all of them, node by node and in order |
| `EngineWrites.RenderedIsWritten` | internal/engine/engine.go:164-178 | a complete walk has written, to the node's target and through its decorators, every object of every template and collection that is not ignored |
| `EngineWrites.WrittenIsRendered` | internal/engine/engine.go:63-178 | whatever a walk has written, complete or not, such a node renders |
| `EngineWrites.WalkObserves` | internal/engine/engine.go:101-178 | a node on the way is observed as its turn found it: nothing if ignored or empty, the referenced object, exactly the objects of its kind, namespace and selector, or what it applied as read back right after each write |
| `EngineWrites.WalkEnds` | internal/engine/engine.go:64-169 | a walk that does not complete waits exactly at a pending answer or an absent external object and fails only on an error or a missing client |
| `EngineLaws.ObservationsPersist` | internal/engine/engine.go:85-180 | later nodes never disturb what earlier ones were observed as |
| `EngineLaws.StoppedPassIsPrefix` | internal/engine/engine.go:60-192 | a walk that stops early writes a prefix of what a complete walk with the same observations writes |
| `EngineLaws.SameObservationsSameWrites` | internal/engine/engine.go:60-192 | two complete walks that observe the same write the same |
| `EngineLaws.CompletePassReadiness` | internal/engine/engine.go:40-51 | a complete walk is ready exactly when every node that is neither ignored nor an empty external read is ready |
| `Reconciler.ChildGVKs` | internal/controller/reconciler.go:398-416 | exactly the kinds that template nodes create in the target, each once, for every iteration order |
| `Reconciler.ChildGVKString` | internal/controller/reconciler.go:491-499 | the sweeper will read exactly these kinds back, each once |
| `Reconciler.ReapTargets` | internal/controller/reconciler.go:326-351 | each wired target is reaped of exactly its own child kinds, other targets untouched |
| `Reconciler.WriteLivenessRecord` | internal/controller/reconciler.go:422-470 | the record carries exactly the four labels, the time and the kinds the sweeper needs, nothing else changes, and a failed call leaves the record as it was or written |
| `Reconciler.ChainsFinal` | internal/controller/reconciler.go:157-189 | the consumer chain labels and owns, the other two label and rename |
| `Reconciler.WiringFinal` | internal/controller/reconciler.go:155-191 | per target: uid, cluster and blueprint labels everywhere, the owner in the consumer workspace, a qualified name outside it, nothing else changed; the host is read and written exactly when it has a client |
| `Reconciler.WalkWritesOwn` | internal/controller/reconciler.go:155-191 | every write of a walk carries the instance's labels, is of a child kind of its target and, outside the consumer workspace, has a qualified name |
| `Reconciler.SinksHoldWritten` | internal/engine/apply.go:64-77 | a target's sink holds exactly the identities written there |
| `Pass.CompletePassIsExact` | internal/controller/reconciler.go:213-228 | after a complete pass the labelled objects of each wired target's child kinds are exactly those applied |
| `PassOutcome.RenderedIsThere` | internal/controller/reconciler.go:155-228 | after a complete pass every object some node renders is there, in the node's target, labelled |
| `PassOutcome.OnlyRenderedIsThere` | internal/controller/reconciler.go:155-228 | and everything of the instance that is there some node renders, with that spec, and with the instance as owner in the consumer workspace |
| `Pass.RecordSurvivesPrune` | internal/controller/reconciler.go:373-388 | the record just written survives the pass if and only if ConfigMap is no provider child kind |
| `Pass.SecondPassChangesNothing` | internal/controller/reconciler.go:100-258 | repeating a complete pass with the same writes changes no object but the record |
| `SecondPass.SecondPassRetraces` | internal/engine/engine.go:60-192 | if a complete pass writes no object twice and what its external nodes read or list is neither written, nor labelled, nor the record, a second walk over what it left completes, observes and writes the same |
| `SecondPass.SameInputsSecondPassIsIdle` | internal/controller/reconciler.go:100-258 | under the same conditions on the inputs the second pass changes no object of any store but the record |
| `Pass.PruneTakesOwnLeftovers` | internal/controller/reconciler.go:359-393 | pruning takes only what carried the label before the pass and was not applied by it, the record aside |
| `Pass.Prune` | internal/controller/reconciler.go:359-393 | after a complete pass everything labelled, of a child kind and not applied goes and nothing else; a failure is a call that failed |
| `Pass.RecordAndPrune` | internal/controller/reconciler.go:196-235 | an incomplete pass deletes nothing, nothing applied is missing however the pass ends, what is missing was labelled and not applied, and without an error the stores are exactly the specified ones |
| `Pass.ApplyPass` | internal/controller/reconciler.go:155-235 | the same for the whole non-deleting branch; an engine error leaves a prefix of the walk's writes and nothing more, so no refreshed record |
| `Pass.DeleteChildren` | internal/controller/reconciler.go:326-351 | on success no labelled child of the graph's kinds is left in any wired target, on failure only such objects are gone |
| `Pass.Finalize` | internal/controller/reconciler.go:107-128 | however it ends only labelled children and the record are gone and the rest is as it was; the finalizer goes only once children and record are gone, and goes unless a call fails; on success krop's finalizer is gone and no other |
| `Pass.Reconcile` | internal/controller/reconciler.go:100-258 | branch by branch: the finalizer is put on before any store is touched, given up only once nothing is left, and a pass relates to the failure-free walk as specified; only own objects are ever gone; without a failing call there is an error exactly when the engine cannot get through; the consumer workspace sees only calls the graph asks for |
| `Pass.ClaimsCoverCalls` | internal/registrar/registrar.go:180-191 | every such call on a foreign type is covered by a published claim with its verb, and a type only read is claimed for get, list and watch alone |
| `LifecycleSafety.StepKeeps` | internal/controller/reconciler.go:100-258 | every step of every participant keeps the protocol's invariant |
| `LifecycleTheorems.DisappearsOnlyWhenSpotless` | internal/controller/reconciler.go:107-136 | in every run an instance disappears only when no object carries its label in any store and its record is gone |
| `LifecycleTheorems.GoneForGood` | internal/controller/reconciler.go:107-136 | once gone, nothing of it ever comes back |
| `LifecycleTheorems.MarkedImpliesFinalizer` | internal/controller/reconciler.go:130-137 | in every run a labelled object's instance exists with the finalizer on it |
| `LifecycleTheorems.ScopeSharedOnlyByNamesakes` | internal/engine/naming.go:40-55 | outside the consumer workspaces two instances can render the same object only if they agree on cluster and name |
| `LifecycleTheorems.ApplyOverwritesNoOther` | internal/engine/apply.go:132-162 | in every run an apply in the provider or host store overwrites no child of an instance with another cluster or name |
| `LifecycleTheorems.WorkerRemovesNoOther` | internal/controller/reconciler.go:326-393 | in every run a worker removes no such child there either, even if it changed hands after the listing |
| `LifecycleTheorems.OnlyTakenOverIsLost` | internal/controller/reconciler.go:326-393 | in every run and every store, what a worker removes carries its own label, or another instance that renders it has taken it over, or somebody else has stripped the label |
| `LifecyclePrune.PruneSparesItsPass` | internal/controller/reconciler.go:213-228 | in every run a pruning worker removes an object only if it has begun another pass since every step that applied it, and prunes only with the engine through and the record put |
| `LifecyclePrune.PruneLeavesItsPass` | internal/controller/reconciler.go:359-393 | in every run, when a prune is through, whatever carries the instance's label was applied by that pass, the record aside |
| `LifecycleFinalizer.FinalizerGoesOnTheLiving` | internal/controller/reconciler.go:128-136 | in every run the finalizer is put on only by the own worker, on the object it read, which nobody has begun to delete since |
| `LifecycleFinalizer.FinalizerComesOffTheSpotless` | internal/controller/reconciler.go:107-126 | in every run it is taken off only from an instance being deleted of which no labelled object and no record is left |
| `LifecycleSweep.SweepRemovesOnlyOrphans` | internal/controller/sweeper.go:186-262 | in every run what the sweeper removes is outside the consumer workspaces, is the record or rendered by its instance, and carries its label, or was taken over by an instance that renders it, or stripped by somebody else |
| `LifecycleSweep.SweepCanDeleteAStrangersChild` | internal/controller/sweeper.go:248-258 | for every two instances rendering a common object outside the consumer workspaces, a run in which the sweep for the one deletes the other's child |
| `LifecycleSweep.SweepDeletesOthersExactly` | internal/controller/sweeper.go:186-262 | labels left alone, this happens if and only if another instance renders the object |
| `LifecycleTheorems.UnrenderedIsUntouched` | internal/controller/reconciler.go:326-416 | an object no template renders and that is no record, whenever it came into being, is unchanged by every further run of passes, prunes, deletions and sweeps |
| `LifecycleTheorems.RecordNamesEveryChild` | internal/controller/reconciler.go:196-211 | in every run each provider or host child of an instance with a record is of a kind that record names |
| `LifecycleTheorems.SweptRecordLeavesNoChild` | internal/controller/sweeper.go:186-198 | a record is swept only when no provider or host child is left, if no pass ran meanwhile, ConfigMap is no provider child kind and the sweeper can reach the host |
| `LifecycleRace.PruneCanDeleteAStrangersChild` | internal/controller/reconciler.go:373-388 | for every world and every two instances rendering a common object, a run in which a prune deletes the other's child |
| `LifecycleRace.PruneCanDeleteTheUnlabelled` | internal/controller/reconciler.go:373-388 | for every instance and object it renders, a run in which the label is stripped after the listing and the object deleted |
| `LifecycleRace.DeletesOnlyOwnExactly` | internal/controller/reconciler.go:326-393 | labels left alone, a worker can delete an object without its own label if and only if another instance renders it |
| `LifecycleRace.NamesakeTakesOverAndRemoves` | internal/engine/naming.go:40-41 | for every two instances rendering a common object, a run in which the second takes it over and removes it while the first lives on |
| `LifecycleLoss.SweepCanRemoveTheRecordFirst` | internal/controller/sweeper.go:186-262 | whenever ConfigMap is a provider child kind, a run in which a quiet sweep removes the record and leaves a child |
| `LifecycleLoss.FailingSweepAbandons` | internal/controller/sweeper.go:189-193 | whenever ConfigMap is a provider child kind, a run in which the sweep then fails and the child is left with no record |
| `LifecycleLoss.AbandonedForGood` | internal/controller/sweeper.go:186-262 | while its own worker stays idle and nobody outside krop removes it, no continuation of a run with sweeps and passes of others reclaims such a child, if no other instance renders it |
| `SweepTiming.BoundInstanceIsNeverSwept` | internal/controller/sweeper.go:145-184 | with gap + min(lag, gap) + 1s <= StaleAfter, no interleaving of refreshes, restarts and sweep steps lets the sweeper delete for an instance that had been bound for more than one gap when the sweep began |
| `SweepTiming.AlwaysBoundIsNeverSwept` | internal/controller/sweeper.go:145-184 | without unbinding the sweeper never gets as far as deleting |
| `SweepTiming.SmallerMarginIsUnsafe` | internal/controller/reconciler.go:430-430 | for every smaller threshold some run of an always bound, always refreshed instance ends with its children being deleted |
| `SweepTiming.MarginIsExact` | internal/controller/sweeper.go:145-184 | an instance that is never unbound is never swept in any run if and only if StaleAfter is at least that |
| `SweepTiming.RebindingRacesTheSweep` | internal/controller/sweeper.go:163-198 | for every time up to one gap, or after the sweep began, a run in which an instance bound then has refreshed while its children are being deleted |
| `SweepTiming.OrphanIsReclaimedInTime` | internal/controller/sweeper.go:115-139 | some tick within max(last refresh, start) + StaleAfter + SweepInterval passes both the grace and the staleness check |
| `Sweeper.SweepChildrenVia` | internal/controller/sweeper.go:233-262 | on success exactly the labelled objects of the listed kinds are gone, empty and malformed tokens skipped; on failure some of them |
| `Sweeper.SweepChildren` | internal/controller/sweeper.go:208-228 | both planes, the host only with a client; a record without uid label is an error that deletes nothing |
| `Sweeper.SweepOne` | internal/controller/sweeper.go:163-198 | a record refreshed at most StaleAfter ago, or unreadable, costs nothing and loses nothing; an older one goes after everything it condemns, unless a call for it failed |
| `Sweeper.SweepListed` | internal/controller/sweeper.go:163-198 | unless the delete of a record itself fails, every expired record goes with all it condemns, save one at most for each failed call |
| `Sweeper.Sweeper.Start` | internal/controller/sweeper.go:123-128 | anchors the startup grace |
| `Sweeper.Sweeper.Sweep` | internal/controller/sweeper.go:145-201 | within the grace nothing is touched; whatever is missing afterwards is a record with now - lastReconciled > StaleAfter, or carries the uid of such a record and is of a kind it lists, never in the consumer workspace; nothing is changed; without a failing call all of that is gone; otherwise each failed call costs one record at most |
| `SweepSafety.RecordIsReadBack` | internal/controller/reconciler.go:422-470 | the sweeper lists the record a pass writes and reads the uid, the time and exactly the child kinds of both planes out of it |
| `SweepSafety.JudgesAlike` | internal/controller/sweeper.go:182-184 | the sweep calls a record overdue exactly when the real-time race calls its stamp stale |
| `SweepSafety.FreshIsSpared` | internal/controller/sweeper.go:163-198 | whatever fails, a sweep leaves a record refreshed at most StaleAfter ago, and every object with its uid, as they are |
| `SweepSafety.BoundInstanceKeepsItsObjects` | internal/controller/sweeper.go:145-201 | with a sound margin, in every run of heartbeats, restarts and bindings, a sweep takes nothing of an instance that had been bound for more than one gap when it began |
| `SweepSafety.SweepUndoesThePass` | internal/controller/sweeper.go:186-228 | a clean sweep past the threshold takes everything a complete pass put outside the consumer workspace and its record, if ConfigMap is no provider child kind, and nothing in the consumer workspace |
| `SweepDeadline.SweepAtTicks` | internal/controller/sweeper.go:115-139 | the ticker loop: if no call fails, an orphan's record and recorded children are gone once a tick is past the grace and the staleness threshold |
| `SweepDeadline.OrphanIsGoneInTime` | internal/controller/sweeper.go:115-201 | over a run of sweeps without failing calls, as Sweep promises them, an orphan's record and recorded children are gone by max(last refresh, start) + StaleAfter + SweepInterval |
| `Supervisor.NoStrayManager` | internal/supervisor/supervisor.go:54-108 | in every interleaving a manager neither cancelled nor done is the mapped one or held by a Stop about to cancel it |
| `Supervisor.OneServerPerExport` | internal/supervisor/supervisor.go:54-108 | of two live managers of one export one is cancelled or about to be |
| `Supervisor.StaysMapped` | internal/supervisor/supervisor.go:80-88 | whatever other generations do, a running manager stays mapped and uncancelled until its export is stopped |
| `Supervisor.Supervisor.Ensure` | internal/supervisor/supervisor.go:54-78 | takes the machine's Ensure step: starts a new generation exactly when none is mapped |
| `Supervisor.Supervisor.TakeOut` | internal/supervisor/supervisor.go:100-104 | takes the machine's Take step: out of the map, held by the caller |
| `Supervisor.Supervisor.CancelHeld` | internal/supervisor/supervisor.go:105-107 | takes the machine's Cancel step on exactly the entry that was taken |
| `Supervisor.Supervisor.Stop` | internal/supervisor/supervisor.go:100-108 | both, leaving the export unmapped and nothing held |
| `Supervisor.Supervisor.Forget` | internal/supervisor/supervisor.go:82-88 | takes the machine's Forget step: by object identity it unmaps this generation and no other |
| `Supervisor.Supervisor.Running` | internal/supervisor/supervisor.go:91-97 | true exactly when a manager is mapped |
| `PublishApi.ExistingSchemaIsRight` | internal/registrar/publish.go:47-65 | a schema that is already there is the one the pass would have created, so not patching it is sound |
| `PublishTheorems.MappedManagerServesObserved` | internal/registrar/registrar.go:127-150 | in every run the mapped manager of a published export is unread or serves what the status shows, unless the last restart has not reached the status |
| `PublishTheorems.IdleServesObserved` | cmd/controller/main.go:426-439 | if status writes commit, this holds for every blueprint whenever the registrar is idle |
| `PublishTheorems.PassServesItsBuild` | internal/registrar/registrar.go:139-163 | in every run a pass serves exactly Build(name, spec) with the spec's routing, cached or not |
| `PublishTheorems.UnchangedResyncReplacesOnlyTheExited` | cmd/controller/main.go:426-439 | an unchanged resync starts a manager only if the last one of the export exited by itself, all earlier ones being cancelled or done |
| `PublishTheorems.ReleasedIsWithdrawn` | internal/registrar/registrar.go:85-116 | a published blueprint leaves only by its release, and then export, referenced schemas, cache entry, registry entry and manager are gone |
| `PublishTheorems.WithdrawalIsRetryable` | internal/registrar/publish.go:91-114 | in every run the finalizer is still there, and the export is too or all it referenced is gone |
| `PublishTheorems.NamedExportIsWhole` | internal/registrar/publish.go:122-152 | the export a live blueprint's status names exists with every schema it references |
| `PublishTheorems.DanglingOnlyInWithdrawal` | internal/registrar/publish.go:100-111 | in every run an export lacks a schema it references only while the blueprint that names it is being deleted |
| `PublishRuns.RetriedWithdrawalCompletes` | internal/registrar/registrar.go:85-116 | every run that leaves the registrar idle and a blueprint deleted, continued by one pass over it whose calls all succeed, ends with the blueprint released |
| `PublishRuns.LostStatusServesStale` | internal/registrar/registrar.go:135-135 | for all specs A and B of one type, a run with one lost status write after which spec and status show A and B is served |
| `PublishRuns.RenamedExportIsLeft` | internal/registrar/registrar.go:193-222 | for all A and B of different types, a run after which A's export is published and served and no status names it |
| `PublishRuns.SupersededSchemaIsLeft` | internal/registrar/publish.go:100-111 | for all A and B of one type, a run after which A's schema exists and no export references it |
| `PublishRuns.WithdrawalLeavesExportDangling` | internal/registrar/publish.go:100-111 | for every publishable blueprint, a run with one lost answer after which its export references a missing schema |
| `PublishRuns.UnnamedOfferingIsLeft` | internal/registrar/registrar.go:96-110 | for every publishable blueprint, a run with one failed status write after which it is released and its export, registry entry and manager stay |
| `PublishRuns.LeftoverStays` | internal/registrar/registrar.go:85-116 | unless a blueprint of that name is created again no run ever removes such an export |
| `PublishRemains.ExportsAreNamed` | internal/registrar/registrar.go:193-232 | in every run in which publishes commit and passes keep to the export their status names, every export is named by a status or by the pass about to name it |
| `PublishRemains.NothingUnnamedExactly` | internal/registrar/registrar.go:193-232 | if publishes commit, an idle registrar leaves no export unnamed in any run if and only if edits never rename an export |
| `PublishRemains.OnlyGenuineIsServed` | internal/registrar/registrar.go:139-163 | in every run whatever a registry entry or a manager holds for an export is build and routing of some spec that generates that export |
| `PublishRemains.FreshnessExactly` | internal/registrar/registrar.go:127-150 | whatever happens to status writes, an idle registrar's managers serve what the statuses show in every run if and only if specs that keep a blueprint's export build and route alike |
| `PublishRemains.SchemasAreReferenced` | internal/registrar/registrar.go:165-196 | in every run in which publishes go through and no pass meets a published blueprint with a changed spec, every schema is referenced |
| `PublishRemains.NothingUnreferencedExactly` | internal/registrar/registrar.go:165-196 | if publishes go through, an idle registrar leaves no schema unreferenced in any run if and only if no blueprint has two buildable specs of one export |
| `Registrar.BpKeyInjective` | internal/registrar/cache.go:34-34 | cache keys separate (workspace, name) pairs when workspaces contain no bar |
| `Registrar.GraphCache.Get` | internal/registrar/cache.go:37-47 | a hit exactly when this hash is the one cached for the blueprint, and then its graph |
| `Registrar.GraphCache.Put` | internal/registrar/cache.go:50-54 | the blueprint then has exactly this one hash, others are untouched |
| `Registrar.GraphCache.Delete` | internal/registrar/cache.go:57-61 | nothing of the blueprint is left, others are untouched |
| `Registrar.LookupOrBuild` | internal/registrar/registrar.go:139-150 | the cached graph on a matching hash, otherwise the built one, which is then the only one cached |
| `Registrar.OnPublished` | cmd/controller/main.go:426-439 | registry first, then Stop exactly if changed, then Ensure; a manager is mapped and nothing held |
| `Registrar.OnDeleted` | cmd/controller/main.go:440-445 | manager stopped and unmapped, registry entry gone; nothing on the empty name |
| `RegistrarPass.PassIsARun` | internal/registrar/registrar.go:74-240 | a pass of the class is a run of the machine, so the machine's theorems hold of its fields |
| `RegistrarPass.Process.Compile` | internal/registrar/registrar.go:135-163 | takes the machine's build step; with a right cache the result is Build and routing of the spec |
| `RegistrarPass.Process.ApplySchema` | internal/registrar/publish.go:51-65 | creates the schema v, hash, dot, plural, dot, group unless it exists, no other, and never changes an existing one |
| `RegistrarPass.Process.ResolveClaims` | internal/registrar/registrar.go:174-191 | claims come out exactly when some foreign type is needed in the consumer workspace and every non-core one has an identity, and are then those the graph and routing call for |
| `RegistrarPass.Process.UpsertExport` | internal/registrar/publish.go:122-152 | the export plural, dot, group references exactly the pass's schema and carries exactly its claims |
| `RegistrarPass.Process.PublishClaims` | internal/registrar/registrar.go:174-198 | on success the export references exactly the pass's schema and carries its claims; without a failing call it succeeds exactly when the claims resolve |
| `RegistrarPass.Process.Notify` | internal/registrar/registrar.go:203-205 | the machine's callback steps, in their order |
| `RegistrarPass.Process.DeletePublishedAPI` | internal/registrar/publish.go:91-114 | whatever fails, if the export is gone so is every schema it referenced; no other schema or export is touched |
| `RegistrarPass.Process.Withdraw` | internal/registrar/registrar.go:85-116 | fails exactly when a call fails; the blueprint goes only at the end; on success export, the schemas it referenced, cache entry, registry entry and manager are gone and no other schema or export is touched |
| `RegistrarPass.Process.PublishBlueprint` | internal/registrar/registrar.go:118-240 | on success status, registry, mapped manager, export, schema and claims all belong to Build and routing of the spec that was read; without a failing call it succeeds exactly when the spec builds and its claims resolve |
| `RegistrarPass.Process.Reconcile` | internal/registrar/registrar.go:74-240 | whatever fails, the fields end where a run of the machine's worker leads; success means the complete offering of the spec, or nothing left of a deleted one, schemas included; without a failing call it succeeds exactly when it can |

## Left out

- Status conditions, status projection and the `fail` condition update: library wrappers; a failed publish only has to leave the recorded hash and export alone, and does.
- kro's graph building and CEL evaluation, kcp's schema conversion: deterministic functions here.
- SHA-256 and JSON marshalling: arbitrary functions with collision-freedom on the inputs in use as an explicit assumption.
- Client transport, watches, informers, endpoint-slice polling, flags, logging, leader election: plumbing.
- Field merging of server-side apply: an apply merges labels, keeps a foreign status and replaces the spec as a whole.
- Children that linger on their own finalizers, and collection by owner reference: Delete takes effect at once.
- Changes of the graph under a running reconciler: a run has one graph per blueprint, so kinds dropped by an edit, which krop neither prunes nor collects, do not occur.
- The clock in `Sweep` is read once per sweep and in a refresh once per record, as in the code; clock skew between controller replicas is not modelled.
- SweepRemovesOnlyOrphans: that a sweep can also meet the successor of its instance under the same name is allowed for; no run of it is built.
- SweepListed: the order in which the API server lists records is arbitrary in the model.
- ClaimsCoverCalls: speaks of the calls the graph asks for; that the reconciler makes no others in the consumer workspace is part of `Pass.Reconcile`.
- UpsertExport: the claims of an export are kept beside the machine's state, which records only the referenced schemas.
- PublishBlueprint: conflicts on resource versions are covered as failing calls; a stale write that the API server would reject is possible in the machine too, so the theorems hold with or without the check.
- The instance lifecycle is modelled twice, as methods over stores (`Pass`, `Sweeper`) and as a machine of single calls (`Lifecycle`); that the methods take the machine's steps is proved for the registrar only.
- SecondPassRetraces: gives conditions that suffice; an external node that lists an object the pass writes may by chance still list the same.
