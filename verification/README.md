# The chorda kernel: lifecycle, services, loader and pipelines

chorda is a plugin kernel. Plugins run on *fibers*, which form a tree; services live in *realms*, which form
another tree of nested scopes; a fiber may depend on services, hard or soft, and on its parent. Disposing a
fiber tears down its children and the fibers that run on its services, runs its cleanups newest first, and may
itself change the services other fibers see. A loader keeps a declarative tree of entries mounted, and
pipelines run a chain of middlewares around a built-in behaviour.

This project models that behaviour and proves what it promises.

## Two levels

*The serialized level* is where most of the project lives. Each public operation runs to completion and is
driven by a host task that the call does not itself abort; between operations no disposal is in flight.
`KernelState.State` is the kernel's registries as one value, and for each operation a function gives the state
it leaves (`Disposal.DisposeState`, `Start.Wake`, and `Provide`, `Register`, `RegisterBatch`, `Fork`, ... in
`Operations`). `Kernel.Kernel` is the kernel as a class whose fields are those registries and whose methods
follow the source step by step; each is proved to leave the state its function gives. Its ghost `log` records
when each disposal began, which cleanups ran, and when it ended. Theorems over runs and
over sequences of operations are then about the functions. `Loader.Loader` stands on the kernel object in the
same way.

*The await-granular level* is `Lifecycle`: what runs between two awaits is one move, any fiber may move next,
and a disposal may begin at any time. It is used for the properties of a single fiber's life.

Fibers are records in an `arena` keyed by id, which stands for the shared objects that handles keep alive; the
`registry` is the set of ids in the kernel's fiber map. Cleanup futures are data (`KernelState.Effect`).
Service values are ids compared the way `Arc::ptr_eq` compares them.

## Where to start reading

| file | what it settles |
|---|---|
| `KernelState.dfy` | the state, the cascade graph over fibers, and the invariant `Inv` |
| `Disposal.dfy`, `Teardown.dfy` | the closed form of a teardown, of a teardown in progress, and of several in a row |
| `Closure.dfy` | who falls with whom, in terms of the records and realm chains alone |
| `Readiness.dfy` | when a plugin starts, in the same terms, and what it starts on |
| `History.dfy`, `Ledger.dfy` | what stays true of a fiber from its birth on: its place, its plugin, and what it holds in which order |
| `Trace.dfy`, `Logs.dfy` | the order of a teardown, as a stack discipline and its consequences, and of several in a row |
| `Start.dfy`, `Operations.dfy`, `Runs.dfy`, `Progress.dfy` | wake-ups, all operations, all runs, progress and the one lost wake-up |
| `Realms.dfy`, `Slice.dfy`, `Pipeline.dfy`, `Onion.dfy`, `Dispatch.dfy` | the realm walks, the slice numbering, the chain order, the onion, a whole dispatch |
| `Values.dfy` | which operation changes what a running fiber reads |
| `Kernel.dfy` | the kernel class |
| `EntryTree.dfy`, `LoaderPlan.dfy`, `Loader.dfy` | entry trees, one reconcile pass, the loader class |
| `Repair.dfy`, `LoaderRuns.dfy`, `MountedPlugins.dfy` | when the repair loop ends, sessions that mix kernel and loader, and which plugin each entry runs |
| `Witnesses.dfy` | runs that exhibit what the documentation leaves open |
| `Lifecycle.dfy` | every interleaving |

## Where the documentation and the code differ

The model follows the code.

- The documentation of soft dependencies (src/plugin.rs:23-31, src/kernel.rs:500-504, src/kernel.rs:536-537)
  says a soft dependent starts once all declared providers have settled, failed ones included. Neither a failed
  setup nor a disposal calls `wake_satisfied`, so such a dependent stays queued.
  `Progress.FailedProviderStrandsItsDependent` exhibits a run, and `Runs.DisposalStaysCalm` says exactly when
  a disposal leaves a queued fiber that could start; such a fiber waited for a declared provider that falls with
  the disposal (`Runs.StrandedHadWaited`). Every other operation leaves a calm kernel calm (`Runs.ApplyKeepsCalm`).
- `repair_collateral` is documented to terminate (src/loader.rs:620-624). It does if and only if the root fiber
  is live or nothing is dead: `Repair.RepairEndsIff`. For a whole pass that gets past validation this means a
  live root, or nothing to create or replace and no kept entry with a Disposed fiber: `Repair.ReconcileEndsIff`.
  The failing family is `Repair.DisposedRootLoops` (dispose the root, then reconcile a tree that keeps a running
  entry); its smallest member is `Repair.OneEntryLoops`. `Loader.Loader.Reconcile` is proved under exactly this
  condition.
- A provided service is documented to be removed when its providing fiber is disposed, unless it was replaced
  (src/context.rs:88-94). The cleanup matches by value (src/kernel.rs:658-677) and providing the same value again is
  not a replacement (src/context.rs:127), so disposing one of two fibers that provided the same value at one realm
  and key also takes the binding of the other, which survives: `Witnesses.SharedValueIsLost` is a run. A binding
  outlives a disposal if and only if no fiber that falls holds a cleanup of its value (`Disposal.BindingStaysIff`);
  a surviving provider that provided its value alone keeps it (`Disposal.SoleProviderKeepsBinding`).
- Conversely a provider whose value was replaced still disconnects the users of the replacement, although that
  binding stays, since dependents are found by realm and key (src/kernel.rs:374-403):
  `Disposal.ReplacedProviderDisconnects`.
- Disposing the root empties the registry, the queue and every service table
  (`Teardown.RootTakesEverything`), but a middleware registered through the context of a fiber that had already
  left the registry stays, since nothing holds its cleanup: `Teardown.OnlyOrphanMiddlewaresRemain`, and
  `Witnesses.OrphanRun` for a run.
- `LoaderReport::kept` is documented as the entries left untouched (src/loader.rs:418-419). The code also counts
  the groups and disabled rows of the new tree that were not mounted, and kept entries that the same pass
  restarts. The count is the number of untouched entries if and only if there are none of either:
  `Loader.KeptCountsUntouched`. `Loader.GroupIsReportedKept` is a tree on which the two differ.
- `LoaderReport::restarted` is documented as side effects of the pass (src/loader.rs:412-416). The code restarts every
  kept entry whose fiber is Disposed, also one disposed before the pass. The restarted entries are all side effects
  if and only if there was none such: `Repair.RestartedAreSideEffectsIff`; `Repair.HandDisposedIsRestarted` is a case.
- Shadowing a service from a nested realm disconnects nobody (src/context.rs:127-133), so a running fiber's hard
  keys keep resolving (`Runs.EveryRunKeepsInv`) but may change their value. `Values.ValueChangesIff` says exactly
  which operation changes what a surviving fiber reads, and `Witnesses.ShadowingChangesTheValue` is a run.

## Model

| member | source | states |
|---|---|---|
| KernelState.DoomedIsLeast | src/fiber.rs:467-492 | the cascade closure of a live fiber is contained in every set that holds the fiber and is closed under "child of" and "runs on the binding now held where the fiber once provided" |
| KernelState.DoomedIsClosed | src/fiber.rs:467-492 | the closure is itself closed under the cascade graph and holds the fiber disposed |
| Closure.FallsIff | src/fiber.rs:467-492 | a fiber falls with `f` if and only if it is `f`, or hangs on a fiber that falls: as its registered child, or running with an injected key whose first binder on its own realm chain is where the other provided that key |
| Closure.FallsOnlyIf | src/kernel.rs:354-403 | the closure lies in every set that holds `f` and whoever hangs on its members, so realms isolate: nobody falls for a binding he does not read |
| Closure.EdgeIffHangsOn | src/kernel.rs:354-403 | the cascade leads from one fiber directly to another exactly if the second hangs on the first |
| Closure.OnlyReadersFall | src/kernel.rs:374-403 | whoever falls without being below a falling fiber read a service that a falling fiber provided |
| Closure.FallenAreFinished | src/fiber.rs:519-523 | whoever falls is marked, emptied, unregistered and unqueued, in the phase asked for, or Disposed; every other fiber keeps record, registration and queue entries |
| Closure.MiddlewareStaysIff | src/kernel.rs:919-928 | a middleware outlives a disposal exactly if its fiber does not fall, and the order of the others stays |
| Kernel.Kernel.Dispose | src/fiber.rs:399-525 | for every iteration order of the registries, disposing a fiber leaves the closed form: exactly the closure computed in the state before the call is finished and its cleanups have taken effect, all other records are as they were, the invariant is kept, and the logged events are accepted by the trace discipline, from the beginning of the fiber's own disposal to its end |
| Disposal.SurvivorKeepsRecord | src/fiber.rs:467-523 | a fiber outside the closure keeps its record and its registration |
| Disposal.BindingStaysIff | src/kernel.rs:658-677 | a binding outlives a disposal if and only if no fiber that falls holds a cleanup of its very value; where it stays it keeps its value, and none appears |
| Disposal.SoleProviderKeepsBinding | src/context.rs:88-91 | a survivor that alone provided the bound value keeps its binding |
| Disposal.ReplacedProviderDisconnects | src/fiber.rs:467-484 | disposing a provider whose value was replaced takes down the users of the replacement and leaves the replacement bound |
| Witnesses.SharedValueIsLost | src/context.rs:107-127 | a concrete run: of two providers of one value the first is disposed, and the second stays Ready with its record unchanged while the key no longer resolves |
| Kernel.Kernel.DisposeFiber | src/fiber.rs:399-525 | the recursive step: from any point inside a cascade it ends at a later point of the same cascade, with the fiber started, everything newly started also finished, and all of it reachable from the fiber in the original graph; it terminates because registered, unmarked fibers only get fewer |
| Kernel.Kernel.DisconnectDependents | src/fiber.rs:462-484 | afterwards every original dependent of every service the fiber provided has been started, although the graph changed while it was walked |
| Kernel.Kernel.DisposeChildren | src/fiber.rs:486-492 | afterwards every original child has been started |
| Kernel.Kernel.Drain | src/fiber.rs:494-517 | the drain loop runs and logs all cleanups held when it begins, newest first, and leaves the list empty |
| Kernel.Kernel.RunBatch | src/fiber.rs:508-516 | a taken batch is run and logged cleanup by cleanup, newest first, each changing the tables as its cleanup says |
| Kernel.Kernel.DependentsOf | src/kernel.rs:374-403 | walks the registry in any order and lists exactly the live Starting or Ready fibers that injected the key and resolve it to this realm, each once |
| Kernel.Kernel.ChildrenOf | src/kernel.rs:354-365 | walks the registry in any order and lists exactly the live children, each once |
| Disposal.MidFinishes | src/fiber.rs:494-523 | draining one fiber newest first and leaving the registry takes the cascade from one well-described intermediate state to the next: its queue entries go, and the bindings and middlewares that match its cleanups |
| Disposal.ResolutionStable | src/kernel.rs:406-421 | at every moment of a cascade a fiber not yet reached still resolves each key it injected to the realm it resolved before the cascade |
| Disposal.DependentsMid | src/kernel.rs:374-403 | mid-cascade, the dependents found are exactly the original dependents not yet started |
| Disposal.TornKeepsCore | src/fiber.rs:399-525 | tearing down a closed set keeps the whole invariant: registry tree, owned bindings, exact queue, resolved hard keys, owned middlewares |
| Disposal.TornKeepsBlocked | src/fiber.rs:399-525 | a teardown leaves every queued fiber blocked on some key |
| Teardown.DoomedAfter | src/fiber.rs:467-492 | after a teardown, a survivor's closure is its old closure without what is gone |
| Teardown.GoneTwice | src/fiber.rs:399-525 | tearing down one set and then another is tearing down their union |
| Teardown.DisposeEachIsUnion | src/context.rs:127-133 | disposing fibers one after another takes down the union of their closures computed before the first |
| Teardown.OrderOfDisposalsIsIrrelevant | src/context.rs:127-133 | disposing the same fibers in another order, with other repetitions, leaves the same kernel |
| Teardown.RootReaches | src/kernel.rs:354-365 | the registry is a tree: every registered fiber is reached from the root, which is registered whenever any fiber is |
| Teardown.RootTakesEverything | src/kernel.rs:125-133 | disposing the root leaves no registered fiber, no queued entry and no bound service |
| Teardown.OnlyOrphanMiddlewaresRemain | src/pipeline.rs:152-183 | a middleware outlives the root exactly if its fiber had left the registry before |
| Witnesses.OrphanStays | src/pipeline.rs:152-183 | from any state, a middleware registered through the context of an unregistered fiber is still there after the root is disposed |
| Witnesses.OrphanRun | src/pipeline.rs:152-183 | a concrete run that ends with an empty registry and such a middleware |
| Kernel.Kernel.DisposeKernel | src/kernel.rs:125-133 | kernel disposal ends with the registry, the queue and all service tables empty, and logs one accepted trace that ends every registered fiber; the sweep finds nothing to do |
| Kernel.Kernel.DisposeInTurn | src/context.rs:127-133 | disposing a list of fibers leaves one teardown of the union of their closures and logs one accepted trace for each |
| Logs.NoFiberFallsTwice | src/fiber.rs:406-409 | no fiber begins its disposal in two traces of disposals in a row |
| Trace.NestedOrDisjoint | src/fiber.rs:406-409 | disposal intervals of one cascade are nested or disjoint |
| Trace.InnerEndsFirst | src/fiber.rs:478-492 | a disposal begun inside another has ended whenever the outer one runs a cleanup or ends |
| Trace.TriggeredByEnclosing | src/fiber.rs:478-492 | a disposal that begins inside others begins because it is its turn in the innermost of them: users first, service by service in the order they were provided, then children |
| Trace.UsersBeforeChildren | src/fiber.rs:462-492 | a child that uses no service of its parent begins after every user of the parent's services has begun |
| Trace.CascadePrecedesEffects | src/fiber.rs:462-517 | when a cleanup of a fiber runs, everything it leads to is completely torn down, except disposals that enclose its own |
| Trace.UsersBeforeServices | src/fiber.rs:462-463 | when the cleanup of a binding runs, every fiber that ran on the binding has begun its own teardown |
| Trace.EffectsRunOnceLifo | src/fiber.rs:494-517 | each disposed fiber's cleanups ran exactly once, in reverse registration order; untouched fibers ran none |
| Ledger.OpHolds | src/context.rs:107-125 | over every operation a fiber that stays registered holds exactly what it held, followed by the cleanups and services the operation gives it |
| Ledger.NewestRunsFirst | src/context.rs:250-257 | whatever kind of cleanup was given to a fiber last (an effect, the removal of a service, the removal of a middleware) runs first when the fiber is disposed |
| Ledger.LaterRunsEarlier | src/fiber.rs:494-517 | of two cleanups given to a fiber the later one runs earlier, whatever operations lie before, between and after |
| Trace.BeginsOnce | src/fiber.rs:406-409 | no disposal begins or ends twice |
| Trace.CompleteTrace | src/fiber.rs:399-525 | a completed cascade ended exactly the disposals it began |
| Start.WakeIsPass | src/kernel.rs:452-498 | a wake-up pass starts exactly the satisfied queued fibers on their own plugin, keeps the others queued, and touches no other fiber |
| Readiness.WokenIff | src/kernel.rs:452-588 | a pass starts a queued entry if and only if every key of its plugin is bound on its realm chain, or is soft and declared by no other queued or starting fiber in a realm of that chain |
| Readiness.PassStartsPlugins | src/kernel.rs:1044-1072 | such an entry's fiber is Starting with exactly the hard keys of the queued plugin injected and exactly its declarations; any other entry keeps its record and its place in the queue |
| Readiness.NewcomerStartsIff | src/context.rs:146-173 | a registered plugin starts at once under the same condition, on all its hard keys, and queues otherwise; its fiber is registered below the context's fiber, in its realm, holding nothing |
| Readiness.BatchTakesOn | src/context.rs:185-211 | the i-th plugin of a batch takes the i-th new fiber, below the context's fiber, and waits or starts on that very plugin |
| Readiness.BatchWaitsForDeclarers | src/context.rs:175-184 | within a batch a soft dependent waits for a declarer of its unbound key, whichever of the two comes first |
| Readiness.ForkIsReady | src/context.rs:216-232 | a fork is registered below the context's fiber, Ready and empty |
| Readiness.BornDisposedBelowTheDead | src/context.rs:156-162 | below a fiber that is gone the newborn is Disposed and unregistered, and nothing else changes |
| History.OpTracks | src/fiber.rs:239-263 | over every operation a fiber keeps its parent and realm, is never registered anew, keeps its cleanups and services as a prefix, and goes on waiting for or running the plugin it serves |
| History.EveryFiberIsTrue | src/context.rs:146-232 | over every run each registered fiber hangs below the fiber and in the realm it was created through, and waits for or runs exactly the plugin it was created for |
| History.HardKeysResolve | src/plugin.rs:18-24 | over every run every hard key of the plugin a Starting or Ready fiber was created for resolves in its realm |
| History.HardUsersFall | src/fiber.rs:467-484 | and disposing a live provider of the binding such a key resolves to leaves that fiber Disposed and unregistered |
| History.NewbornFalls | src/kernel.rs:354-365 | after a fork, a registration or a batch through an active fiber, disposing that fiber leaves each new fiber terminal and unregistered |
| History.ChildrenFall | src/kernel.rs:354-365 | over every run disposing the fiber behind the context a fiber was created through takes that fiber down |
| History.SoftNeverDisconnects | src/plugin.rs:20-31 | over every run a fiber created for a plugin without hard dependencies falls with another fiber only if its parent does |
| History.FinishedSetupIsReady | src/kernel.rs:1093-1104 | a fiber whose setup returned is registered and Ready |
| Start.WakeKeepsCore | src/kernel.rs:494-498 | a pass keeps the invariant; in particular whoever starts has every hard key resolved |
| Start.WakeCalms | src/kernel.rs:452-498 | after a pass nobody queued is satisfied, and everybody queued misses some key |
| Start.WakeIgnoresQueueOrder | src/kernel.rs:452-491 | which entries a pass starts and which it leaves is the same for every permutation of the queue |
| Kernel.Kernel.TakeSatisfied | src/kernel.rs:452-491 | the drain, judge and refill loop splits the queue into the satisfied and the unsatisfied live entries, in order |
| Kernel.Kernel.DependenciesSatisfied | src/kernel.rs:505-532 | the loop over the dependencies accepts exactly if each resolves or is soft without an unsettled declared provider |
| Kernel.Kernel.FindDeclaredProvider | src/kernel.rs:538-588 | the three scans find a provider exactly if a peer, a queued plugin or a starting fiber other than the waiting one declares the key visibly |
| Kernel.Kernel.StartPlugin | src/kernel.rs:1044-1072 | starting records the hard keys and the declarations and sets Starting, unless a disposal began |
| Kernel.Kernel.WakeSatisfied | src/kernel.rs:494-498 | the loop over the satisfied entries performs one pass |
| Kernel.Kernel.Provide | src/context.rs:95-136 | binds, hands the cleanup to the fiber, disposes the users of a replaced value and wakes; the whole new state is stated, and what the disposals log |
| Kernel.Kernel.Register | src/context.rs:146-173 | a new fiber starts, queues, or is born disposed below a parent that is going; the whole new state is stated |
| Kernel.Kernel.RegisterBatch | src/context.rs:185-211 | every plugin is queued before any starts, then one pass runs; the whole new state is stated |
| Kernel.Kernel.ForkScope | src/context.rs:216-232 | a fork is born ready, or disposed below a parent that is going |
| Kernel.Kernel.DeriveRealm | src/context.rs:237-245 | a derived context keeps the fiber and gets a fresh child realm; the invariant is kept |
| Kernel.Kernel.AddEffectTo | src/context.rs:250-257 | only a registered fiber accepts a cleanup; the invariant is kept |
| Kernel.Kernel.SetupSucceeded | src/kernel.rs:1093-1104 | a finished setup makes its fiber Ready and wakes; afterwards nobody queued is satisfied |
| Kernel.Kernel.SetupFailed | src/kernel.rs:1105-1123 | a failed setup tears its fiber down and leaves it Failed |
| Runs.ProvideKeeps | src/context.rs:95-136 | providing keeps the invariant, replacement and its disconnections included |
| Runs.EveryRunKeepsInv | src/context.rs:95-257 | over every run of operations: hard keys of running fibers resolve, the registry is a tree, every binding has a registered owner holding its cleanup, and the queue holds each live Pending fiber once, each missing some key |
| Runs.ApplyKeepsCalm | src/kernel.rs:494-498 | every operation but a disposal leaves a calm kernel calm: nobody queued could start |
| Runs.CalmUnlessStranded | src/fiber.rs:519-524 | a teardown leaves a queued fiber that could start if and only if some surviving entry's keys all still resolve or are soft and declared by no survivor |
| Runs.DisposalStaysCalm | src/fiber.rs:399-525 | disposing a fiber of a calm kernel leaves it calm if and only if the fiber's closure strands nobody |
| Runs.StrandedHadWaited | src/kernel.rs:505-532 | a stranded entry of a calm kernel had an unresolved soft key with a declared provider, and none of its providers survives |
| Values.ValueChangesIff | src/context.rs:95-136 | an operation changes what a surviving fiber reads for an injected key if and only if it provides that key unshadowed from the fiber, with a different value, and either binds it afresh or comes from the fiber itself |
| Values.ProvideChangesValue | src/context.rs:95-136 | after a `provide` a surviving fiber reads the new value in exactly those cases, and its old value otherwise |
| Values.ProvideFellsIff | src/context.rs:127-133 | a `provide` fells a fiber if and only if an active fiber replaces a bound value by another one and the fiber falls with some other running reader of that binding |
| Values.TeardownKeepsValues | src/fiber.rs:462-517 | a teardown changes no value a survivor injected |
| Values.BindIsReadUnshadowed | src/kernel.rs:619-654 | a new binding is what a lookup of its key returns exactly where nothing nearer shadows it, and no other lookup changes |
| Witnesses.ShadowingChangesTheValue | src/context.rs:127-133 | a concrete run after which a running fiber reads a shadowing value in place of the one it started on |
| Progress.FailedProviderStrandsItsDependent | src/kernel.rs:1105-1123 | a concrete run: a soft dependent whose declared provider failed stays queued although it is satisfied and nothing is starting |
| Progress.StuckOnMissingHard | src/kernel.rs:505-532 | without soft cycles and with nothing starting, every queued fiber of a calm kernel leads through soft waits to one that misses a hard key |
| Progress.NoDeadlock | src/kernel.rs:505-532 | a calm kernel with nothing starting, no missing hard key and no soft cycle has an empty queue |
| Progress.SomebodyWakes | src/kernel.rs:452-491 | with nothing starting, no missing hard key and no soft cycle, a pass over a non-empty queue wakes somebody |
| Progress.WaitersAreNotWoken | src/kernel.rs:538-588 | no fiber starts in the pass that still has a visible queued plugin declaring a soft key it cannot resolve |
| Progress.EveryScheduleDrains | src/kernel.rs:1093-1104 | every schedule of finishing setups and added services has boundedly many finishing setups, and when no setup is left the queue is empty |
| Realms.ResolveIsFirstOnChain | src/kernel.rs:406-421 | the resolving realm is the first realm of the chain that binds the key, and there is none exactly if no realm of the chain does |
| Realms.VisibleIsOnChain | src/kernel.rs:593-606 | visibility is membership in the realm chain |
| Realms.ChainShape | src/kernel.rs:1024-1039 | the chain follows parent links through ever older realms and ends at the root |
| Realms.ChangeIsIsolated | src/kernel.rs:619-677 | changing one key of one realm alters lookups of that key from its unshadowed subtree only, and there to the new binding or the one above |
| Realms.ResolvesThere | src/kernel.rs:406-421 | a lookup reads a binding exactly if the binding's realm is on the chain and no nearer realm shadows the key |
| Realms.DerivedRealmIsInvisible | src/context.rs:234-245 | deriving a realm changes no lookup from the realms there were |
| Values.DerivedRealmFallsThrough | src/context.rs:234-245 | from a derived realm every key is read as from the realm it was derived from |
| Kernel.Kernel.ResolvingRealm | src/kernel.rs:406-421 | the walk up the parent links computes the resolving realm |
| Kernel.Kernel.LookupService | src/kernel.rs:619-638 | the lookup walk returns the value of the resolving realm |
| Kernel.Kernel.VisibleFrom | src/kernel.rs:593-606 | the visibility walk decides visibility |
| Kernel.Kernel.RealmChain | src/kernel.rs:1024-1039 | the walk lists the chain |
| Slice.SliceIsExact | src/kernel.rs:935-973 | the slice holds exactly the ancestors, the realm and all its descendants |
| Slice.SliceIsBreadthFirst | src/kernel.rs:935-973 | each realm occurs once, the ancestors come root first, and smaller depth always means a smaller index |
| Slice.SliceIsByAge | src/kernel.rs:948-970 | descendants stand in the order of their parents' positions, and siblings oldest first, so the numbering is fully determined |
| Slice.NoRealmIsEnqueuedTwice | src/kernel.rs:962-969 | at every step of the walk over a slice the children found are all new, so a step lists exactly them and no realm is ever enqueued twice |
| Slice.WalkYieldsSlice | src/kernel.rs:947-970 | every list the walk goes through is continued to the slice, so the statement above is about the walk that computes it |
| Kernel.Kernel.PipelineSlice | src/kernel.rs:935-973 | the queue-driven numbering is the bijection between the slice and 0..n, whatever order the realm map is iterated in |
| Pipeline.SortIsDequeChain | src/kernel.rs:978-1021 | any sorted selection by slice index, prepends newest first, appends oldest first, is the concatenation of one deque per realm |
| Pipeline.SortedIsUnique | src/kernel.rs:998-1007 | the comparator leaves no freedom: a selection has at most one sorted order |
| Pipeline.DequeAfterRemoval | src/kernel.rs:919-928 | removing a registration removes it from its deque and disturbs nothing else |
| Dispatch.NewcomerPlace | src/pipeline.rs:185-207 | a new middleware is the first of its realm if prepended and the last otherwise; other realms and extension points keep their chains |
| Pipeline.ActiveOnlyMembers | src/kernel.rs:992-996 | the selection keeps exactly the registrations of active fibers, in order |
| Kernel.Kernel.PipelineChain | src/kernel.rs:978-1021 | the snapshot of a dispatch is the deque chain of the active registrations over the slice |
| Kernel.Kernel.RegisterMiddleware | src/pipeline.rs:152-183 | appends a registration under a fresh id and gives its fiber the cleanup; the invariant is kept |
| Onion.RunIsFold | src/pipeline.rs:122-148 | the index walk is the right fold of the remaining chain around the fallback |
| Onion.RewritingRewrites | src/pipeline.rs:131-148 | a middleware that rewrites input and output runs the rest of the chain on its rewritten input and returns its rewrite of the rest's output |
| Onion.TwiceSeesBoth | src/pipeline.rs:100-105 | a middleware that calls `next` twice has each call run the rest of the chain on the payload it chose, the second depending on the first output, and gets both outputs in order |
| Onion.RunComposes | src/pipeline.rs:215-227 | running a chain in two parts is running the outer part around the inner part run around the fallback |
| Onion.VetoHidesTheRest | src/pipeline.rs:135-148 | below a layer that ignores `next`, neither the rest of the chain nor the fallback can change the result |
| Dispatch.OuterRealmsWrap | src/pipeline.rs:215-227 | a dispatch over a slice in two parts is the outer realms run around the dispatch over the inner ones |
| Dispatch.VetoHidesInnerRealms | src/pipeline.rs:135-148 | below a vetoing middleware of an outer realm, neither what inner realms register nor the fallback can change the result |
| Kernel.Kernel.Waterfall | src/pipeline.rs:215-227 | dispatching runs the onion over the deque chain of the active registrations of the slice around the fallback |
| EntryTree.ForestIffChainsEnd | src/loader.rs:347-362 | the parent relation has no cycle if and only if no parent chain outlasts the number of entries |
| EntryTree.LongClimbFindsCycle | src/loader.rs:347-362 | pigeonhole: a parent chain that outlasts the number of entries meets a cycle |
| EntryTree.CycleNeverEnds | src/loader.rs:347-362 | an entry on a cycle has a parent chain of every length, so the bound misses no cycle through it |
| EntryTree.OnCycle | src/loader.rs:347-362 | the counting walk reports exactly the chains that outlast the number of entries |
| EntryTree.ValidateStructure | src/loader.rs:328-367 | succeeds if and only if every parent exists and is a group and the parents form a forest; a fault it reports is real |
| EntryTree.WellStructuredIff | src/loader.rs:328-367 | the accepted structures are those where every named parent exists and has no plugin and no path of parent references returns to its start |
| EntryTree.MountableIff | src/loader.rs:302-325 | mountable is having a plugin with no path of parent references to a row marked disabled |
| EntryTree.DisabledUpTheChain | src/loader.rs:310-325 | terminates on validated trees and decides whether the entry or an ancestor is disabled |
| EntryTree.IsEffectivelyEnabled | src/loader.rs:302-308 | the entry exists and neither it nor an ancestor is disabled |
| EntryTree.DisableCascades | src/loader.rs:190-193 | an entry is effectively enabled exactly if it is enabled itself and its parent, if any, is effectively enabled |
| EntryTree.ParseRow | src/loader.rs:819-831 | accepts exactly the rows that deserialize, have a non-empty id, and carry no config when they have no plugin; the fault names the first reason |
| EntryTree.FromValue | src/loader.rs:226-248 | accepts exactly the arrays of well-formed rows with unique ids and a valid structure, keeps every row, and returns a tree that can be written out and read back |
| EntryTree.Compose | src/loader.rs:264-285 | accepts exactly well-formed layers whose merge is structurally valid, and returns the merge, which can be written out and read back |
| EntryTree.LayersOverride | src/loader.rs:256-263 | merging stacked layers is overriding by id, row by row, and is compositional |
| EntryTree.DocumentRoundTrip | src/loader.rs:287-293 | writing a tree out in id order and reading it back gives the same tree |
| EntryTree.AcceptedRoundTrip | src/loader.rs:226-293 | whatever rows are accepted, alone or as merged layers, make a tree that survives the round trip |
| LoaderPlan.PhaseTwoConverges | src/loader.rs:570-604 | after phase two the mounted options are exactly the mountable part of the tree |
| LoaderPlan.DeadAreCasualties | src/loader.rs:625-637 | with a live root, the entries dead after phase two are exactly the kept ones whose fiber was Disposed before or lies in the closure of the removed and replaced fibers |
| LoaderPlan.RepairRevives | src/loader.rs:625-660 | one repair batch leaves no mounted fiber Disposed below a live root, and revives nobody below a dead one |
| MountedPlugins.MountServes | src/loader.rs:493-537 | below a live root every mounted entry's fiber waits for, or starts on, the plugin its own kind builds from its own config |
| MountedPlugins.PhaseTwoServes | src/loader.rs:586-604 | the same for every created or replaced entry of a reconcile pass |
| MountedPlugins.RepairServes | src/loader.rs:638-657 | the same for every restarted entry, from the options it is mounted with |
| MountedPlugins.EveryEntryServes | src/loader.rs:440-660 | over every session of kernel operations, kinds, mounts and reconciles each mounted entry's fiber, while registered, waits for or runs exactly the plugin built from that entry |
| LoaderPlan.RootIsSpared | src/loader.rs:570-604 | no disposal of another fiber reaches the root |
| Loader.Loader.Reconcile | src/loader.rs:554-618 | succeeds if and only if every changed entry can be built; a rejected tree changes nothing; on success the kernel, the mounted map and the report are those of phase one, phase two and repair, and the log grew by accepted traces of disposing the removed and replaced fibers |
| Loader.Loader.Plan | src/loader.rs:665-721 | decides for each id of either tree, in id order, whether it is kept, created, replaced or removed, and counts the kept ones |
| Loader.Loader.RepairCollateral | src/loader.rs:625-660 | the repair loop ends, re-registering exactly the dead entries and reporting them in id order |
| Loader.Loader.Mount | src/loader.rs:493-537 | succeeds if and only if nothing is mounted and every mountable entry can be built; it returns the mounted ids in id order, and a rejected tree mounts nothing |
| Loader.Loader.RegisterEntryKind | src/loader.rs:453-458 | rejects exactly the duplicate names and never changes what a kind already registered decodes |
| Loader.ReconcileConverges | src/loader.rs:554-618 | with a live root a successful pass leaves mounted exactly the mountable part of the tree, no mounted fiber Disposed, and both invariants intact |
| Loader.KeptEntriesKeepTheirFiber | src/loader.rs:539-553 | a kept entry keeps its fiber unless it was a casualty; exactly the casualties are reported as restarted |
| Loader.CountsAddUp | src/loader.rs:404-420 | kept, created, updated and removed entries together count every id of either tree once |
| Loader.KeptCountsUntouched | src/loader.rs:418-419 | the kept count is the number of untouched entries if and only if nobody is restarted and every unmounted entry of the tree is mountable |
| Loader.GroupIsReportedKept | src/loader.rs:709-712 | a single group reconciled into an empty loader is counted as kept although nothing was mounted |
| Loader.SecondPassIsIdle | src/loader.rs:554-618 | an immediate second pass with the same tree succeeds and ends, and its only outcome is an unchanged kernel and mounts with everything reported as kept |
| Loader.MountIsReconcile | src/loader.rs:493-537 | mounting a tree on an empty loader is reconciling the empty loader against it |
| Repair.RepairEndsIff | src/loader.rs:625-660 | the repair loop ends after some number of rounds if and only if the root is live or nothing is dead |
| Repair.RepairNeverEnds | src/loader.rs:625-660 | below a root that is gone every number of rounds leaves the same entries dead, so with a dead entry the loop never returns |
| Repair.ReconcileEndsIff | src/loader.rs:554-660 | a validated pass ends if and only if the root is live before it, or it has nothing to create or replace and keeps no entry with a Disposed fiber |
| Repair.DisposedRootLoops | src/loader.rs:620-660 | dispose the root below a running mounted entry, and reconciling any buildable tree that keeps the entry never ends |
| Repair.OneEntryLoops | src/loader.rs:620-660 | the smallest such run: mount one entry on a fresh kernel, dispose the root, reconcile the same tree |
| Repair.RestartedAreSideEffectsIff | src/loader.rs:412-416 | with a live root everything restarted fell in the pass if and only if no kept entry's fiber was Disposed before it |
| Repair.HandDisposedIsRestarted | src/loader.rs:625-660 | a mounted entry's fiber is disposed, then a pass with the same tree disposes nobody and reports the entry as restarted |
| LoaderRuns.EverySessionIsOk | src/loader.rs:440-660 | over every session of kernel operations, kind registrations, mounts and reconciles, the kernel's invariant holds and each mounted entry can be rebuilt and has a known fiber of its own |
| LoaderRuns.ApplyKeepsFibers | src/fiber.rs:281-310 | no operation forgets a fiber a handle may name |
| Lifecycle.EveryRunIsOk | src/fiber.rs:399-525 | over every interleaving each life keeps its accounts (what was accepted was taken in order or waits, what was taken ran newest first or is left of the last batch) and is registered exactly until its terminal phase |
| Lifecycle.LivesMoveForward | src/fiber.rs:44-64 | however a run continues, phases only move forward and Failed and Disposed are never left |
| Lifecycle.OnceEach | src/kernel.rs:1044-1072 | setup starts at most once and at most one disposal proceeds |
| Lifecycle.EffectsRunExactlyOnce | src/fiber.rs:494-524 | a fiber that left the registry ran every cleanup it accepted exactly as often as it accepted it, and its life is over |
| Lifecycle.BatchesRunNewestFirst | src/fiber.rs:494-517 | over every interleaving the accepted cleanups, in order, are cut into the batches the drain takes, and what ran is these batches one after another, each newest first |
| Lifecycle.OneBatchIsReversed | src/fiber.rs:494-517 | when one batch was enough, the cleanups ran in exactly the reverse of the order they were accepted in |
| Lifecycle.LateEffectsRun | src/context.rs:250-257 | a cleanup accepted at any time while the fiber is registered, also during its disposal, has run when the fiber leaves |
| Lifecycle.DisposalSeals | src/kernel.rs:1044-1049 | once a fiber's disposal began its setup is never started and its phase changes only to the one the disposal ends in |
| Lifecycle.EndsAsBegun | src/fiber.rs:519-523 | a disposal ends in the phase it began with: Failed after a failed setup, Disposed otherwise |
| Lifecycle.PassStartsSetups | src/kernel.rs:494-498 | a pass starts the setup of exactly the fibers it takes from the queue whose disposal has not begun |
| Lifecycle.OwedWhileRegistered | src/fiber.rs:494-517 | a cleanup accepted and not yet run belongs to a fiber still registered, in its list or in the batch being drained |

## Left out

- Kernel.Kernel: fiber objects shared by handles are records in a map keyed by id, so aliasing is by id, and a record is replaced where the source mutates a field behind a lock.
- Kernel.Kernel.Dispose: running inside a setup that its own cascade aborts, or inside a task of the fiber it disposes, is not covered by the serialized level; the setup's abort appears as its fiber having no further setup steps.
- Kernel.Kernel.DependentsOf: among the users of one service, and among children, the order of disposal is left open, as it is a hash map's order in the source.
- Kernel.Kernel.Provide: a call made by a setup that the disconnections of that same call tear down is outside the host-driven assumption.
- Kernel.Kernel.PipelineChain: the library's sort is modelled as insertion into a sorted sequence; the comparator is the source's.
- Loader.Loader.Reconcile: requires that the pass ends, exactly as `Repair.ReconcileEndsIff` characterises it, because otherwise the source loops for ever; checking a config and building from it are one deterministic function, so a build that fails after a successful check is not modelled.
- Onion.RunIsFold: a middleware decides from its input and the outputs it has seen, and bounds its calls of `next` by its input; shared mutable state between middlewares, and panics, are not modelled.
- Lifecycle.EveryRunIsOk: the wait of a disposal for its tasks, dependents and children is one stage of arbitrary length, and which queued fibers a pass wakes is arbitrary; ordering among fibers is stated at the serialized level.
- Tasks, graceful termination, abort handles, watch channels, `Notify`, `wait_idle`, `run_until` and real time: scheduling machinery whose progress depends on user futures.
- Arbitrary code inside cleanups: cleanups are service removal, middleware removal, or an opaque token.
- Id counters are unbounded naturals; the source's 32- and 64-bit counters are assumed not to wrap.
- Entry ids are naturals in the order of the strings, with 0 for the empty string; JSON text, serde and schemas are reduced to rows that parse or do not.
- src/events.rs: dispatch filters a handler list by realm chain and calls closures; it adds no property beyond the chain's.
- src/registry.rs, src/extract.rs, src/service.rs and chorda-macros: linker inventory, thin wrappers and token handling.
- Logging, `describe`, handle accessors and names: diagnostics only.
