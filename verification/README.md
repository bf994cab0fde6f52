# Verification of the control plane and the change pipeline

Dafny models of three parts of sovereign-core, and proofs about them. `dafny verify dfyconfig.toml` checks everything.

**The control plane** (`src/controlplane`). Creating a project, creating a branch and starting an endpoint each run a
goroutine of lock-protected steps over a metadata store, a metering log, a pool of warm compute instances and a routing
table; suspending and resolving an endpoint interleave with them.

- `ControlPlane` is the step machine: one critical section, or one call of a port, is one step, and the steps of any
  number of calls in flight interleave freely. Ports succeed or fail at will. The only assumption is that ids are fresh:
  what `newID` and the storage port's `CreateBranch` return is new (`Enabled`), and no two booted instances share id or
  host (`Fresh`); for the storage port of the repository the hosts follow from the ids (`Mocks`).
- `Resolve` reads an entry's state and address after it has released the lock (routing.go:58-59), so those two reads are
  steps of their own. So are its two writes at the end, which the code makes under one lock; the machine allows every
  interleaving of the code and some more. The verification report of the repository calls the control plane free of data
  races; by the code these two reads are not protected.
- `Runs` is induction over runs. `Ledger`, `Metering`, `Places` and `Routes` hold the four parts of the inductive invariant,
  `Safety` keeps it over all runs, and `Theorems` says what follows from it. `Sync` and `Divergence` follow one endpoint's
  two states, in the store and in the table.
- `Stores`, `WarmPools`, `Routing` and `Apps` are the same objects in the source's own form: classes whose methods update
  fields in place, each proved against a function on values. `Calls` shows that every run of the machine which takes one
  call alone from its beginning to its end does exactly what the call does as a whole, for the lucks it drew; `Serial`
  that from rest there is such a run for all lucks, and what holds between calls; `Apps.App` makes the calls on the real
  objects, so every object state it reaches is a reachable machine state. `Told` tells each call in the fields it changes,
  `Reports` what callers learn of compute and boot times; `Walks` makes calls in a row, from the start.
- `PoolLaws` has the laws of the warm pool over call sequences, which `Theorems` carries over to every interleaving;
  `EndpointIds` the printing and parsing of endpoint ids; `Idempotency` and `KeyRaces` the idempotency keys, first for calls
  one at a time, then for overlapping ones.

**The change pipeline** (`src/governance/change_pipeline`). `Solvers` is the constrained choice among candidates, over
numbers with infinities and not-a-number; `Pipelines` the gates and the audit log for arbitrary adapters; `Shipped` plugs the
solver and the adapters of the repository in.

## What turned out

- A started endpoint's direct host leads back to it exactly when its id does not end in `-pooler`. Ids can: the alphabet of
  section 5 of RFC 4648 contains `-`. The pooled host always leads back.
- When calls run one at a time, table and store agree on every endpoint between calls. In general, once no call is between
  its two writes, they disagree on a registered endpoint exactly when the store was last written by a suspend and the table
  by a wake or the end of the start; those two calls were then between their writes at the same time (`ApartExactly`, for
  every run). The table is then active and the store suspended; the opposite never happens (`ApartOneWay`). There is a run
  from the start that ends like this (`DivergentRun`).
- The solver's error can name nobody: a feasible candidate whose score is not a number, or minus infinity, is never chosen
  and not listed as rejected. With finite data it errs exactly when no candidate is feasible, and lists all of them.
- The owner gate reads the origin a request claims. Code attested to come from an automatic agent passes without the owner
  exactly when the request claims another origin.
- Two overlapping calls of one idempotency key can each create an operation. That happens exactly when one looks the key up,
  in vain, while another is between its own failed lookup and storing the key. Keys belong to no organisation: a replayed
  operation is visible to the caller exactly when its organisation made it.
- Nothing ever unregisters an endpoint or deletes a record, so the wake hook's "endpoint gone" branch cannot be reached.

## Model

| member | source | states |
|---|---|---|
| Theorems.OnePlaceEach | src/controlplane/app.go:45-59 | in every reachable state each booted host, and only those, has one place, and it is the real one: once on the ready list, in one call's locals, at one routing entry, or out of use |
| Theorems.InstancesGoForward | src/controlplane/app.go:132-165 | over every run an instance goes from ready to one holder to one routing entry to retired, or is dropped or stranded; it is never handed out twice and never used again |
| Theorems.AddressesExclusive | src/controlplane/routing.go:37-40 | no two endpoints ever map to one address, whatever wakes, suspends and drains overlap |
| Theorems.AnswersExclusive | src/controlplane/routing.go:51-71 | in a whole run Resolve never answers one address for two endpoints |
| Theorems.UsageConserved | src/controlplane/store.go:102-112 | per organisation, metered branch usage equals stored branches less jobs between put and metering, and succeeded creates plus jobs between metering and completion |
| Theorems.UsageWhenIdle | src/controlplane/app.go:91-102 | with nothing in flight the three counts are equal |
| Theorems.BranchHasProject | src/controlplane/app.go:111-120 | every stored branch's project is stored, under the branch's organisation |
| Theorems.EndpointHasBranch | src/controlplane/app.go:133-163 | every stored endpoint's branch is stored, under the endpoint's organisation |
| Theorems.ProjectHasRoot | src/controlplane/app.go:97-99 | every stored project's root branch is stored, ready, of this project and organisation, unless its own job is between the two puts |
| Theorems.StatusFollowsJob | src/controlplane/store.go:134-149 | an operation is running exactly until its goroutine's last step, and then succeeded or failed as that step was |
| Theorems.SnapshotsFinal | src/controlplane/store.go:153-161 | two snapshots taken after an operation left `running` are equal, though completeOp and failOp look at no status |
| Theorems.ResultsResolve | src/controlplane/app.go:101-173 | every id in a succeeded operation's result is found within its organisation, the created branch ready, the started endpoint registered |
| Theorems.RecordsHaveMakers | src/controlplane/app.go:88-176 | every stored project, branch and endpoint was made by an operation that has not failed |
| Theorems.FailuresLeaveNothing | src/controlplane/app.go:88-176 | a failed operation leaves no project, branch or endpoint |
| Theorems.RoutesAreStored | src/controlplane/app.go:158-165 | every registered endpoint is in the store, active or suspended, under every interleaving |
| Theorems.NeverGone | src/controlplane/app.go:46-49 | no wake ever finds its endpoint gone |
| Theorems.LifeCycle | src/controlplane/store.go:177-189 | over every run an endpoint's states, repetitions dropped, are creating, active, then suspended and active in turn, and the current state is the last of them |
| Theorems.LifeIsAllowed | src/controlplane/model.go:100-105 | that life is a path of the transition table |
| Theorems.StartedEndpointsConnect | src/controlplane/app.go:148-173 | every started endpoint is registered, its pooled host leads to it, its direct host exactly when the id does not end in `-pooler` |
| Theorems.PoolOfEvents | src/controlplane/warmpool.go:100-132 | whatever interleaves, the pool is that of the acquiring steps and drains alone, in their order |
| Theorems.ReachablePool | src/controlplane/warmpool.go:100-132 | the pool of every reachable state is one that pool calls lead to |
| Theorems.PoolLawsHold | src/controlplane/warmpool.go:88-132 | conservation of boots and stamps, and the bound on misses, under all interleavings |
| Safety.Keeps | src/controlplane/app.go:88-187 | every step of every call keeps the whole invariant |
| Safety.ReachableSafe | src/controlplane/app.go:31-61 | every reachable state satisfies it |
| Ledger.Keeps | src/controlplane/app.go:88-176 | every step keeps: the store holds exactly what the jobs have written so far, told from their program counters and locals |
| Metering.Keeps | src/controlplane/store.go:96-100 | every step keeps: usage counts the jobs past their metering |
| Metering.UsageConserved | src/controlplane/store.go:96-112 | the two equations of usage, from the invariant |
| Sync.NoOverlapAgrees | src/controlplane/app.go:45-59 | without a suspend overlapping a wake or the end of a start of an endpoint, table and store agree on it whenever no call is between its two writes |
| Sync.SerialAgrees | src/controlplane/app.go:178-187 | when calls run one at a time, port failures included, table and store agree between calls |
| Sync.ApartOneWay | src/controlplane/app.go:185-186 | in every reachable state with no call between its two writes, a registered endpoint disagrees exactly when the table is active and the store suspended |
| Sync.IdleApart | src/controlplane/app.go:185-186 | so in every reachable state with nothing in flight |
| Sync.ApartExactly | src/controlplane/app.go:178-187 | for every run, third calls included: apart exactly when a suspend wrote the store last and a wake or start the table; and those two were in their windows at one moment of the run |
| Divergence.OverlapDiverges | src/controlplane/app.go:185-186 | from an overlap on, while other calls leave the endpoint's two states as they are, whichever call ends first, the table ends active and the store suspended |
| Divergence.OverlapHappens | src/controlplane/routing.go:58-69 | from every reachable state with a suspended endpoint and compute to be had, a wake and a suspend can get into the overlap |
| Divergence.DivergenceHappens | src/controlplane/routing.go:66-69 | and can end with table and store apart, at rest if they began at rest |
| Walks.SuspendedEndpoint | src/controlplane/app.go:178-187 | a run from the start that leaves an endpoint suspended in both places |
| Walks.DivergentRun | src/controlplane/routing.go:66-69 | a run from the start, of every world whose boots succeed, that ends at rest with table and store apart |
| Walks.SomeWorld | src/controlplane/app.go:27-29 | there is such a world, with the default policy |
| Walks.Walk | src/controlplane/app.go:88-200 | on the objects, a project, a branch, an endpoint, a suspend and a connection in a row: the endpoint answers and is active in both places |
| Calls.RunsAreSolo | src/controlplane/app.go:88-187 | every run that takes a call alone to its end is the call's solo run for the lucks it drew |
| Calls.DrawsOnce | src/controlplane/app.go:88-187 | every such run draws at most one luck a step |
| Calls.SoloIsRun | src/controlplane/app.go:88-187 | for lucks with unused ids the solo run is a run of the machine, by events of that call alone |
| Calls.SoloJob | src/controlplane/app.go:88-176 | the solo run of a goroutine ends with the store, pool and table that the whole call leaves |
| Calls.SoloSuspend | src/controlplane/app.go:178-187 | the same for SuspendEndpoint, with its result |
| Calls.SoloResolve | src/controlplane/routing.go:51-71 | the same for Resolve and the wake hook, with the answer |
| Serial.EveryJobRun | src/controlplane/app.go:88-176 | every run from any state that begins an operation and advances it alone to its end leaves exactly what the call does, for the lucks it drew |
| Serial.EverySuspendRun | src/controlplane/app.go:178-187 | the same for SuspendEndpoint |
| Serial.EveryResolveRun | src/controlplane/routing.go:51-71 | the same for Resolve |
| Serial.WholeJob | src/controlplane/app.go:88-176 | from rest, for all lucks with unused ids, there is such a run; it ends at rest, table and store agreeing, and uses up no id but the operation's and those it drew |
| Serial.WholeProject | src/controlplane/app.go:88-104 | this for CreateProject, told by what the ports answer |
| Serial.WholeBranch | src/controlplane/app.go:107-126 | this for CreateBranch |
| Serial.WholeEndpoint | src/controlplane/app.go:129-176 | this for StartEndpoint, with the pool and the table |
| Serial.WholeSuspend | src/controlplane/app.go:178-187 | this for SuspendEndpoint, with its result; no id is used up |
| Serial.WholeResolve | src/controlplane/routing.go:51-71 | this for Resolve and the wake hook, with the answer; no id is used up |
| Serial.RestAgrees | src/controlplane/app.go:178-187 | at rest table and store agree on every endpoint |
| Serial.WakeFindsEndpoint | src/controlplane/app.go:46-49 | at rest the wake hook finds its endpoint |
| Serial.WakeUndoesSuspend | src/controlplane/routing.go:61-70 | suspend, then connect: suspended exactly if it was active, woken exactly if there is compute and the branch attaches; then store and table are as before, with the endpoint active at the new address and nothing else changed |
| Told.ProjectTold | src/controlplane/app.go:88-104 | CreateProject fails exactly when the storage port does; else one project, its ready root branch without a parent, one metered branch and both ids reported, and nothing else |
| Told.BranchTold | src/controlplane/app.go:107-126 | CreateBranch succeeds exactly when the project is stored under the caller's organisation and the port answers; then one ready branch with the parent given, one metered branch, and nothing else |
| Told.AcquireTold | src/controlplane/warmpool.go:100-119 | a ready instance comes at once, otherwise the next boot's in the time it took |
| Told.EndpointTold | src/controlplane/app.go:129-176 | StartEndpoint succeeds exactly when the branch is stored under the caller's organisation, there is compute and the ports grant; then one active endpoint routed to the instance taken, with boot time and warm hit as they were |
| Told.SuspendTold | src/controlplane/app.go:178-187 | SuspendEndpoint succeeds exactly when the endpoint is the caller's and active and the port agrees; the table is suspended even if the store's state then refuses |
| Told.ResolveTold | src/controlplane/routing.go:51-71 | an active entry's address at once; a suspended one woken at the address of the instance taken, with the time its boot took |
| Reports.StartsAreTimed | src/controlplane/app.go:138-173 | in every reachable state a succeeded start was routed to an instance the port booted, and reports a warm hit and 0, or a miss and the time of that very boot |
| Reports.AnswersAreTimed | src/controlplane/routing.go:61-70 | an answer of Resolve that took time took as long as the boot of the instance at the address answered |
| Apps.App.constructor | src/controlplane/app.go:31-61 | the objects start as the machine's first state |
| Apps.App.RunProject | src/controlplane/app.go:88-104 | store after CreateProject |
| Apps.App.RunBranch | src/controlplane/app.go:107-126 | store after CreateBranch |
| Apps.App.RunEndpoint | src/controlplane/app.go:129-176 | store, pool and table after StartEndpoint, in all its branches |
| Apps.App.Boot | src/controlplane/app.go:138-173 | store, pool and table once the branch is found |
| Apps.App.Launch | src/controlplane/app.go:143-173 | store and table once an instance is in hand |
| Apps.App.RunSuspend | src/controlplane/app.go:178-187 | store, table and result of SuspendEndpoint |
| Apps.App.Wake | src/controlplane/app.go:45-59 | store, pool and answer of the wake hook |
| Apps.App.RunResolve | src/controlplane/routing.go:51-71 | store, pool, table and answer of Resolve |
| Apps.App.CreateProject | src/controlplane/app.go:88-104 | the objects end as a run of the machine of this call alone does, at rest, table and store agreeing; every other unused id stays unused |
| Apps.App.CreateBranch | src/controlplane/app.go:107-126 | the same |
| Apps.App.StartEndpoint | src/controlplane/app.go:129-176 | the same |
| Apps.App.SuspendEndpoint | src/controlplane/app.go:178-187 | the same |
| Apps.App.Resolve | src/controlplane/routing.go:51-71 | the same |
| Apps.App.ResolveConnection | src/controlplane/app.go:190-200 | a connection is refused, with nothing changed, exactly when it names no endpoint; otherwise it is that endpoint's Resolve |
| Stores.Store.LookupProject | src/controlplane/store.go:34-42 | a project of another organisation reads as absent |
| Stores.Store.LookupBranch | src/controlplane/store.go:43-51 | a branch of another organisation reads as absent |
| Stores.Store.LookupEndpoint | src/controlplane/store.go:52-60 | an endpoint of another organisation reads as absent |
| Stores.Store.LookupEndpointRef | src/controlplane/store.go:63-71 | an endpoint, whatever its organisation |
| Stores.Store.Insert | src/controlplane/store.go:73-88 | the project, branch, endpoint or operation under its id, replacing what was there |
| Stores.Store.Meter | src/controlplane/store.go:96-100 | the event appended |
| Stores.Store.UsageRollup | src/controlplane/store.go:102-112 | exactly the kinds with an event of the organisation, each with the sum of its events |
| Stores.Store.Complete | src/controlplane/store.go:134-141 | the operation, if known, succeeded with the result, whatever its status |
| Stores.Store.Fail | src/controlplane/store.go:142-149 | the operation, if known, failed, whatever its status; without the error text |
| Stores.Store.Snapshot | src/controlplane/store.go:153-161 | a copy; an operation of another organisation reads as absent |
| Stores.Store.MoveBranch | src/controlplane/store.go:164-176 | moved exactly when found in the organisation and allowed by the table |
| Stores.Store.MoveEndpoint | src/controlplane/store.go:177-189 | moved exactly when found in the organisation and allowed by the table |
| Stores.Store.LookupKey | src/controlplane/store.go:115-123 | the empty key is never known |
| Stores.Store.StoreKey | src/controlplane/store.go:124-131 | the empty key is never stored; another overwrites |
| Stores.UsageIsSum | src/controlplane/store.go:102-112 | usage is the sum over the organisation's events of the kind, in any order |
| Routing.RoutingRegistry.Register | src/controlplane/routing.go:37-40 | a new backend, whatever the id had |
| Routing.RoutingRegistry.SetState | src/controlplane/routing.go:41-44 | the state of a known id's backend, nothing else |
| Routing.RoutingRegistry.Lookup | src/controlplane/routing.go:52-57 | the backend by reference, absent exactly when unknown |
| Routing.RoutingRegistry.Install | src/controlplane/routing.go:66-69 | address and state written through the reference |
| WarmPools.WarmPool.constructor | src/controlplane/warmpool.go:67-73 | a new pool filled to the policy's target |
| WarmPools.WarmPool.RecentAcquiresLocked | src/controlplane/warmpool.go:76-85 | the number of stamps younger than a minute |
| WarmPools.WarmPool.ReplenishLocked | src/controlplane/warmpool.go:88-97 | the list grows by the port's next boots, in order, until the target or the first failure |
| WarmPools.DemandCounts | src/controlplane/warmpool.go:76-85 | the demand is the number of stamps of the last sixty seconds |
| WarmPools.WarmPool.Acquire | src/controlplane/warmpool.go:100-119 | hit, miss or error, with counters, stamps, refill and boots |
| WarmPools.WarmPool.Drain | src/controlplane/warmpool.go:128-132 | an empty ready list, all else as it was |
| PoolLaws.FirstInFirstOut | src/controlplane/warmpool.go:88-132 | over any calls, instances leave in the order they were booted: exits and ready list together are exactly the successful boots |
| PoolLaws.HandedOutOnce | src/controlplane/warmpool.go:100-119 | no instance leaves twice, or leaves and stays ready |
| PoolLaws.BootsConserved | src/controlplane/warmpool.go:88-132 | successful boots are ready, hit, missed or dropped instances; stamps are hits, misses and failed Acquires |
| PoolLaws.MissesArePaid | src/controlplane/warmpool.go:88-132 | for a policy that keeps one: misses, plus one if the list is empty, are at most drains plus failed boots |
| PoolLaws.AlwaysWarm | src/controlplane/warmpool.go:100-110 | without a drain or a failed boot every Acquire is a hit with boot time 0 |
| PoolLaws.LoadTargetClamped | src/controlplane/warmpool.go:37-46 | the target is the floor of the buffered demand, clamped, and monotone in demand |
| PoolLaws.TruncateTowardZero | src/controlplane/warmpool.go:38-38 | the conversion to int cuts toward zero |
| PoolLaws.LoadTargetExact | src/controlplane/warmpool.go:37-46 | the target for any buffer and bounds; max has the last word |
| PoolLaws.NeverOverfull | src/controlplane/warmpool.go:88-119 | the ready list never exceeds the greatest target |
| PoolLaws.AcquireRefills | src/controlplane/warmpool.go:88-119 | after an Acquire whose boots all succeed the list has the larger of the target and what was left; it only shrinks by what is handed out |
| PoolLaws.LoadPolicyBounds | src/controlplane/warmpool.go:37-46 | under every load-proportional policy the list never exceeds max, and with min and max at least 1 misses are paid for |
| PoolLaws.ShippedPolicyBounds | src/controlplane/app.go:27-29 | under the default policy misses are paid for and the list never exceeds 64 |
| PoolLaws.FixedPolicyBounds | src/controlplane/warmpool.go:25-28 | so they are under a fixed target of at least one, which the list never exceeds |
| PoolLaws.DemandIsSuffix | src/controlplane/warmpool.go:76-85 | on a sorted list the counting loop returns the length of the suffix younger than a minute |
| PoolLaws.RecentStaysSorted | src/controlplane/warmpool.go:100-109 | with a clock that never goes back the stamps of every pool stay sorted |
| PoolLaws.DemandOfRun | src/controlplane/warmpool.go:76-85 | so in every run the counting loop returns the length of the suffix of its stamps younger than a minute |
| PoolLaws.AlikeBehave | src/controlplane/warmpool.go:76-119 | pools that differ only in stamps at least a minute old give the same answers, sizes and calls of the port over every later call sequence |
| PoolLaws.PruningIsInvisible | src/controlplane/warmpool.go:76-109 | dropping old stamps at any moment changes no later decision |
| Mocks.BootHostInjective | src/controlplane/mocks.go:35-39 | different ids print different hosts |
| Mocks.FreshIdsFreshHosts | src/controlplane/mocks.go:35-39 | a port that never makes an instance id twice never gives a host twice |
| Mocks.MockBootsFresh | src/controlplane/mocks.go:35-39 | so does the repository's port when its random bytes differ |
| EndpointIds.NewIdInjective | src/controlplane/mocks.go:17-21 | different bytes give different ids |
| EndpointIds.LetterTable | src/controlplane/mocks.go:20-20 | the letters of section 5 of RFC 4648 |
| EndpointIds.SextetsValue | src/controlplane/mocks.go:20-20 | four letters hold the bits of three bytes, in order |
| EndpointIds.NewIdShape | src/controlplane/mocks.go:17-21 | an id is its prefix and twelve letters, free of every separator of the three forms |
| EndpointIds.PooledHostResolves | src/controlplane/routing.go:86-95 | the pooled host of every nonempty dot-free id leads back to it |
| EndpointIds.DirectHostResolves | src/controlplane/routing.go:86-95 | the direct host does exactly when the id does not end in `-pooler` |
| EndpointIds.PoolerLookalike | src/controlplane/mocks.go:17-21 | newID can return an id whose direct host leads elsewhere |
| EndpointIds.NewIdHosts | src/controlplane/app.go:148-156 | both hosts of an id from newID, exactly |
| EndpointIds.ParseKVIsLookup | src/controlplane/routing.go:111-118 | on pairs joined by any runs of spaces and commas, the value of the first pair with the key, or nothing |
| EndpointIds.OptionsResolve | src/controlplane/routing.go:97-99 | the options form leads back to the id, the password untouched |
| EndpointIds.PlainOptionsResolve | src/controlplane/routing.go:97-99 | without a server name `endpoint=` and any nonempty id free of blanks and commas leads back to it |
| EndpointIds.PlainPasswordResolves | src/controlplane/routing.go:101-106 | without both, `endpoint=`, an id, `;` and the password give back id and password |
| EndpointIds.PasswordResolves | src/controlplane/routing.go:101-106 | the password form gives back the id, even empty, and the real password, even with `;` in it |
| EndpointIds.EmptyIdExactly | src/controlplane/routing.go:101-106 | an empty id without an error comes exactly from a password beginning `endpoint=;` when the first two forms give nothing |
| EndpointIds.RefusedExactlyWhenAbsent | src/controlplane/routing.go:84-108 | an attempt is refused exactly when none of the three forms names an endpoint |
| Idempotency.StartOp | src/controlplane/handlers.go:78-88 | one call: replay of a known key, otherwise a new operation stored under the key |
| Idempotency.ReplayExact | src/controlplane/handlers.go:78-88 | calls one at a time get the same operation exactly when they share a nonempty key, that of the first; operations created are keyless calls plus distinct keys |
| KeyRaces.Keeps | src/controlplane/handlers.go:78-88 | every interleaving of lookups, creations, stores and other events keeps the invariant of keys, calls and operations |
| KeyRaces.StoredKeysName | src/controlplane/store.go:124-131 | under any overlap a stored key names an existing operation created by a call with that key |
| KeyRaces.ReplayUnlessRaced | src/controlplane/handlers.go:80-85 | calls of one key get one operation unless the key raced; calls of different keys, or of none, never share one |
| KeyRaces.RacedExactly | src/controlplane/handlers.go:80-85 | once no call of a key is under way, the key raced exactly when it created more than one operation |
| KeyRaces.RaceHappens | src/controlplane/handlers.go:80-85 | a run in which two overlapping calls of one key each get their own operation |
| KeyRaces.ReplayVisible | src/controlplane/store.go:153-161 | a call can read its operation exactly when the call that created it has the same organisation |
| KeyRaces.ServerRunsControlPlane | src/controlplane/handlers.go:84-84 | under any overlap of keyed calls the control plane stays in its own reachable states |
| Solvers.Choice | src/governance/change_pipeline/solver.go:98-113 | an index exactly when some feasible candidate scores above minus infinity; it is feasible, maximal, and the first such |
| Solvers.BestUnique | src/governance/change_pipeline/solver.go:98-113 | there is only one such index |
| Solvers.ChoiceExactly | src/governance/change_pipeline/solver.go:98-113 | the same, spelled out: feasible, above minus infinity, beaten by no feasible candidate, equalled by no earlier one |
| Solvers.FeasibleExactly | src/governance/change_pipeline/solver.go:60-71 | feasible unless headroom is below zero, isolation or sovereignty broken; the first of these in order is the violation |
| Solvers.RiskExactly | src/governance/change_pipeline/solver.go:129-137 | irreversible, else high beyond a half either way, else low |
| Solvers.ScoreIsReal | src/governance/change_pipeline/solver.go:51-56 | the weighted sum, on finite data |
| Changes.OrderLaws | src/governance/change_pipeline/solver.go:107-107 | the order of scores: total but for not-a-number |
| Changes.InfinityLaws | src/governance/change_pipeline/solver.go:51-56 | sums and products with infinities |
| Solvers.PlanTold | src/governance/change_pipeline/solver.go:115-125 | the plan: a note of the choice and every step of the chosen candidate in order, its cost, headroom, isolation and risk |
| Solvers.RejectionsExactly | src/governance/change_pipeline/solver.go:101-106 | each infeasible candidate's entry in the error, in order, with its first violation |
| Solvers.Solver.Plan | src/governance/change_pipeline/solver.go:92-126 | the loop plans that candidate, with all its steps; it fails exactly when there is none, naming every infeasible one in order with its first violation |
| Solvers.FiniteFailure | src/governance/change_pipeline/solver.go:111-113 | with finite data it fails exactly when no candidate is feasible, and names all |
| Solvers.UnscoredIsNeverChosen | src/governance/change_pipeline/solver.go:107-109 | in every list a candidate whose score is not a number, or minus infinity, is never chosen |
| Solvers.FailsExactly | src/governance/change_pipeline/solver.go:107-113 | planning fails exactly when every feasible candidate is such a one |
| Solvers.RejectionsCount | src/governance/change_pipeline/solver.go:102-106 | the error has as many entries as there are infeasible candidates |
| Solvers.UnscoredExample | src/governance/change_pipeline/solver.go:107-113 | a feasible candidate for which planning fails and nobody is named |
| Solvers.InfeasibleIgnored | src/governance/change_pipeline/solver.go:102-106 | infeasible candidates, inserted anywhere, leave the selected candidate as it was |
| Solvers.PermutationKeepsScore | src/governance/change_pipeline/solver.go:101-110 | permuting the candidates never changes the best score |
| Solvers.ScalingKeepsChoice | src/governance/change_pipeline/solver.go:51-56 | a positive factor on all weights keeps the choice |
| Solvers.ChoiceUndominated | src/governance/change_pipeline/solver.go:51-56 | with positive weights no feasible candidate is better than the chosen one on one count and no worse on the others |
| Pipelines.AuditLog.Append | src/governance/change_pipeline/main.go:135-137 | the earlier log is a prefix of the later |
| Pipelines.Pipeline.Handle | src/governance/change_pipeline/main.go:168-229 | outcome, log and executed plans of a request, for any adapters |
| Pipelines.RailExactly | src/governance/change_pipeline/main.go:233-248 | the rail: a development request for a resource or a target under `infra/`, and no other |
| Pipelines.OutcomesExact | src/governance/change_pipeline/main.go:168-229 | the exact condition of each outcome in the request's fields and the adapters' answers; the executor runs at most once, with gate 4's plan, exactly when gates 1 to 5 pass |
| Pipelines.StoppedLogExact | src/governance/change_pipeline/main.go:168-220 | the log entry by entry, up to the gate that stops the request or the executor |
| Pipelines.ExecutedExactly | src/governance/change_pipeline/main.go:222-228 | executed, and failed, exactly when; the log is what the executor leaves, closed by a rollout or a rollback |
| Pipelines.LogFaithful | src/governance/change_pipeline/main.go:168-229 | gate numbers never go back, the gates passed stay in front, and the last entry's gate alone tells the outcome |
| Shipped.SolverApproves | src/governance/change_pipeline/main.go:263-271 | with the solver, the exact requests that pass gates 1 to 5 |
| Shipped.ExecutedIsBest | src/governance/change_pipeline/main.go:233-271 | what is executed is the best feasible candidate with all its steps, reversible, with a density change of at most a half, for no infrastructure request of the development engine and no claimed agent code |
| Shipped.HarmlessExactly | src/governance/change_pipeline/solver.go:129-137 | reversible, with a density change within a half either way |
| Shipped.StepsAreLogged | src/governance/change_pipeline/main.go:323-329 | the shipped executor's log tells of every step of the chosen candidate, in order |
| Shipped.ClaimedOriginDecides | src/governance/change_pipeline/main.go:267-269 | attested agent code passes exactly when another origin is claimed |
| Shipped.ClaimedOriginExample | src/governance/change_pipeline/main.go:267-269 | such a request is executed |
| Shipped.IndexOf | src/governance/change_pipeline/main.go:336-343 | the first occurrence, or -1 exactly when there is none |
| Shipped.Contains | src/governance/change_pipeline/main.go:333-335 | whether a nonempty text occurs |
| Shipped.OccursExactly | src/governance/change_pipeline/main.go:333-335 | a text occurs in another that is something, the text, and something |
| Shipped.ShippedDecisions | src/governance/change_pipeline/main.go:286-296 | the shipped policy, by the texts it looks for |
| Shipped.RunSteps | src/governance/change_pipeline/main.go:323-329 | one entry of gate 6 a step, no failure |
| Shipped.ShippedChoice | src/governance/change_pipeline/solver.go:152-177 | a self-improvement takes its second candidate, any other change its only one, reversible exactly as proposed |
| Shipped.ShippedIsTame | src/governance/change_pipeline/main.go:323-329 | the executor only appends entries of gate 6 |
| Shipped.ShippedOrigin | src/governance/change_pipeline/main.go:179-184 | with the adapters of the repository the attested origin is the claimed one, and the log says so with its standing |
| Shipped.ShippedOutcomes | src/governance/change_pipeline/main.go:275-329 | with the adapters of the repository: the outcome of every request, by its fields; never failed |

## Left out

- HTTP routing, JSON, status codes and the authentication middleware: plumbing. Of the handlers only startOp's use of keys is modelled.
- Tokens, key management, secrets and payment: ports with a yes or no. The credential text in connection URIs, and so the URIs themselves, are not part of this model; the host names in them are.
- Signup: straight-line. It can leave an organisation behind when the token fails, so nothing is claimed of it.
- Ports are functions of nothing but the call: boots follow a fixed sequence of outcomes, all of them allowed; the other ports answer at will.
- The clock is a parameter of each call; deadlines, cancellation, polling and liveness are not modelled.
- Rounding and overflow of floating-point numbers: scores and metering are exact, with infinities and not-a-number kept for the solver.
- The parent of a branch is stored unchecked, as in the code, so nothing is claimed of lineage.
- Deregister, DeleteBranch and DeleteEndpoint: never called by the application.
- mockPlanner: superseded by the solver. The engine boundary simulation and the training flow: separate programs that share no code with the two modelled here.
- The getters of the store return pointers to live records; the model returns their values at that moment.
- Ids are one type of string; that nine random bytes do not repeat is assumed, as freshness.
- Divergence.OverlapDiverges: says nothing of third calls that change the endpoint's states; Sync.ApartExactly covers those runs.
- Walks.DivergentRun: of worlds whose boots may fail it says nothing; without compute no wake gets into a window.
- Apps.App.CreateProject: one call runs to its end before the next begins, and the goroutine's work is part of the call; overlapping calls are the machine's.
- Stores.Store.Insert: organisations and memberships are not stored.
- Stores.Store.Fail: the error text is not kept.
- Pipelines.Pipeline.Handle: entries carry their gate and reason as data; the wording of messages is not modelled, and neither is the dump of the log.
- Shipped.ShippedChoice: names and step texts of the candidates are arbitrary.
- Routing.RoutingRegistry.Install: the object writes address and state together, as under the lock; the machine lets other steps fall between.
