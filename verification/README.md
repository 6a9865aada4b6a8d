# capi-shell-mcp: a verified model

capi-shell-mcp hands kubeconfigs of Cluster API workload clusters to an LLM client, runs commands
against them, and keeps `sshuttle` tunnels open to API servers that are not routable. This project
models the parts of it whose behaviour depends on state, interleaving or string encodings, and
proves what they keep. `dafny verify dfyconfig.toml` checks all of it.

## The modules

**Tunnels** (`internal/proxy/manager.go`), at two granularities.

- `TunnelSteps` is a transition system in which every section under the mutex and every statement
  outside it is one step, and attempts, exit waiters, timer callbacks and KillAll loops interleave
  freely. singleflight appears as its contract: one running attempt per key.
- `TunnelOwnership` proves over all runs that no process is lost, owned twice, overwritten or
  signalled twice, and that KillAll empties the table.
- `TunnelTimed` has a clock and punctual timers, with the refresh, the registration and "fire and
  kill" as single steps. The TTL promises hold here. `TunnelManager` is the same as objects with
  fields updated in place, each method proved equal to one step of `TunnelTimed`.
- `TunnelRefinement` ties the two together: every run with the clock is a run of the finer system.
- `TunnelTimers` says what the timers are there for: a tunnel is registered only after the startup
  window of its own process, and a timer that has been replaced never fires. `TunnelProgress` says
  that attempts and exits never wait in vain.
- `TunnelEnding` and the last part of `TunnelOwnership` concern two promises that the finer
  interleavings break, and say exactly or under which condition they hold.

**The cached kubeconfig pipeline** (`internal/server/kubeconfig.go`, `internal/cache/cache.go`,
`internal/capi/store.go`, `internal/server/resolve.go`).

- `TtlCache` is the cache as a class, specified by the list of operations it has seen.
- `CacheKeys` decides when the colon-joined keys collide.
- `KubeconfigPipeline` interleaves any number of cachedKubeconfig calls with tunnels, KillAll and
  time; what the management cluster answers and what the jq transform does are arbitrary.
  `KubeconfigAnswers` proves exactly when every call answers for its own cluster, and
  `KubeconfigTunnels` exactly when cached kubeconfigs keep their tunnels. `KubeconfigOutcomes` says
  how calls that share a tunnel attempt come out, and `KubeconfigProgress` in which order a call
  does things. `ToolServer` is the same call as a method on the cache and manager objects, and each
  call is a run of the pipeline.
- `ClusterListing` lists the clusters of all configured kubeconfigs through the list cache;
  `ListPipeline` interleaves any number of such listings, and `ListProgress` says in which order
  they do things.

**The target language** (`internal/capi/target.go`, `target_pattern.go`, `resolve_patterns.go`,
`internal/embed/fanout.go`, `internal/server/target.go`, `tools.go`): `Text` (split and join over
unbounded strings), `Selections` (elements kept in order), `Targets`, `ResolvePatterns`, `KnownClusters`, `FanOut`. Fields are arbitrary
strings; a slash in a field is excluded only where a property says so.

**Smaller cores**: `ReadOnlyRbac` (converging the read-only account, role and binding against an
API server that can fail at any call), `OutputLimit` (the shared output budget), `ExpandEnv`
(environment references in configuration strings).

## What does not hold

Each of these is a lemma with a concrete run or input, beside the condition under which the
promise does hold.

- A refresh can lose its tunnel: EnsureProxy looks the entry up, the TTL timer fires and the kill
  goes through, and EnsureProxy still returns success (`TunnelOwnership.RefreshCanLoseTheTunnel`).
  The tunnel is still tracked if and only if no kill of the key and no exit waiter came in between.
- A TTL timer that fires between the creation of an entry and its registration finds nothing to
  kill, and the tunnel is then registered with no timer left
  (`TunnelEnding.WastedKillLeavesTunnelEndless`). A tracked tunnel has an end in sight if and only
  if it was not registered like that, or has been repaired since
  (`TunnelEnding.TrackedTunnelsHaveAnEnd`).
- A call that is slow to store its kubeconfig gives it a longer life than the tunnel it ensured
  (`KubeconfigTunnels.LateReturnOutlivesItsTunnel`). The tunnel lasts as long as the entry if and
  only if it was last ensured no earlier than the entry was stored
  (`KubeconfigTunnels.CachedKubeconfigHasTunnelIff`).
- Cache keys are not injective. Two kubeconfig names collide if and only if one, continued by a
  colon, begins the other (`CacheKeys.KeysCollideIff`). Of two such kubeconfigs one can be shown
  the other's clusters (`ClusterListing.ConfusableSourcesMix`); listings are always right if and
  only if no two different contexts share a key (`ClusterListing.ListingIsRightIff`,
  `ListPipeline.AllRightIff`). Within one kubeconfig, a target such as "prod/a/b:n/x" is accepted
  and has the cache key of "prod/a:b/n/x", so that it can be answered with the kubeconfig of that
  cluster (`ToolServer.ColonTargetGetsAnothers`); every target is answered for its own cluster if
  and only if no two of the clusters asked for share a key, or nothing is ever cached or answered
  (`ToolServer.TargetsGetTheirOwnIff`).
- Field matching is not string prefix at a segment boundary where a pattern can end inside a field
  (`Targets.SlashBreaksSegmentPrefix`, with the exact condition in
  `Targets.SegmentPrefixIffOutOfReach`).
- A slash in a context name or kubeconfig name makes targets ambiguous: list_clusters can list a
  cluster that no pattern matches (`KnownClusters.SlashesListTooMuch`), and the embedded tools do
  not see such a cluster at all (`KnownClusters.SlashedClusterIsMissed`).
- Strict resolution accepts a four-segment path with empty segments that lenient resolution
  refuses (`ResolvePatterns.StrictAgreesWithLenientIff`).
- EnsureReadOnlyRBAC recovers from a changed roleRef only if the API server's message contains
  both "roleRef" and "immutable" (`ReadOnlyRbac.EnsureReadOnlyRBAC`,
  `ReadOnlyRbac.ReportsRecognisedOrNot`).

Code and documentation disagree in two places, and the model follows the code. The comment and
the tool description in `internal/server/types.go:5-8` say that an omitted `clusters` selects every
cluster and an empty array none: `internal/server/tools.go:83` resolves both to no cluster, and
`internal/server/tools.go:43` takes both to mean every cluster.

## Model

| member | source | states |
|---|---|---|
| TunnelSteps.StepKeepsInv | internal/proxy/manager.go:154-239 | every step of every goroutine keeps the ownership invariant of the table, the attempts, the processes and the kills |
| TunnelSteps.RunKeepsInv | internal/proxy/manager.go:154-239 | so does every run |
| TunnelOwnership.NoTunnelLost | internal/proxy/manager.go:154-221 | after any run each spawned process is in exactly one situation: held by the attempt for its key, tracked, removed with its SIGTERM pending, signalled, or exited and untracked; and at most one kill holds it |
| TunnelOwnership.LiveTunnelsOwned | internal/proxy/manager.go:154-221 | a live process is never unowned, and a tracked one always has its exit still to be handled |
| TunnelOwnership.OnePerKey | internal/proxy/manager.go:94-203 | at most one process per key is starting or tracked |
| TunnelOwnership.NeverOverwrites | internal/proxy/manager.go:164-193 | spawning and registering never meet another tunnel for the key |
| TunnelOwnership.WaiterRemovesOnlyItsOwn | internal/proxy/manager.go:195-203 | the exit waiter of a process removes that process from the table or nothing |
| TunnelOwnership.AtMostOneSigterm | internal/proxy/manager.go:195-239 | no run sends a process more than one SIGTERM |
| TunnelOwnership.KillAllDrains | internal/proxy/manager.go:229-239 | when a KillAll returns, every process tracked at its start is untracked and signalled, about to be, or exited, whatever timers, exits, other kills and EnsureProxy attempts interleave; and if no EnsureProxy was or came in flight the table is empty |
| TunnelOwnership.KillersAdvance | internal/proxy/manager.go:207-239 | a kill or a KillAll loop can always take its next step, which brings it nearer its return, and nobody else moves it |
| TunnelOwnership.RefreshedTunnelTrackedIff | internal/proxy/manager.go:155-161 | a refresh returns with its tunnel still tracked if and only if no kill of the key took the lock and the exit waiter did not clean up since the lookup |
| TunnelOwnership.FirstEnsure | internal/proxy/manager.go:164-205 | a run in which a first EnsureProxy succeeds with one tracked process and its TTL timer armed; that no run succeeds without the startup window is TunnelTimers.RegisteredAfterStartup |
| TunnelOwnership.RefreshCanLoseTheTunnel | internal/proxy/manager.go:155-161 | a run in which a refresh succeeds and its tunnel is gone, with a timer left behind for the key |
| TunnelEnding.TrackedTunnelsHaveAnEnd | internal/proxy/manager.go:155-221 | after any run a tracked tunnel has an armed timer, a pending kill, or an attempt about to arm a timer, if and only if it was not registered with its timer spent and no kill on its way, or a refresh or a new kill has repaired that since |
| TunnelEnding.WithoutWasteAllHaveAnEnd | internal/proxy/manager.go:189-221 | which is so throughout a run in which no kill takes the lock between the creation of an entry and its registration |
| TunnelEnding.TimersStayDistinct | internal/proxy/manager.go:160-190 | no two processes ever share a TTL timer |
| TunnelEnding.WastedKillLeavesTunnelEndless | internal/proxy/manager.go:189-193 | a run after which a live tunnel is tracked with no timer armed and nobody left to act |
| TunnelTimers.RegisteredAfterStartup | internal/proxy/manager.go:164-193 | in every run the step that registers a tunnel comes after the firing of the startup timer of its process, and that after the step that spawned the process for that key |
| TunnelTimers.TrackedAfterStartup | internal/proxy/manager.go:175-193 | after any run the startup timer of every tracked process has fired |
| TunnelTimers.StartupTimersAreAwaited | internal/proxy/manager.go:175-187 | an armed startup timer has an attempt that waits for it: no early exit leaves one behind |
| TunnelTimers.AttemptsEnd | internal/proxy/manager.go:154-205 | an attempt is over after exactly four steps: a refresh, a failed spawn or an early exit, which register nothing, and the launch of the waiter |
| TunnelTimers.ArmedTimersAreCurrent | internal/proxy/manager.go:159-190 | after any run an armed TTL timer is the current timer of a process of its key, so one that was replaced never fires |
| TunnelTimers.TakingDownStopsTimer | internal/proxy/manager.go:195-221 | a tunnel whose waiter has cleaned up, or that is about to be signalled, has no armed timer |
| TunnelProgress.SettledTimersStay | internal/proxy/manager.go:159-190 | in any run a timer that has fired or been stopped stays so |
| TunnelProgress.AttemptsAdvance | internal/proxy/manager.go:154-205 | after any run an attempt that does not race its startup timer has its next step to take, and a spawn can fail or succeed |
| TunnelProgress.RacesAdvance | internal/proxy/manager.go:178-187 | an attempt in the select gives up exactly if the exit was reported and goes on exactly if its timer fired, and until then the timer is armed |
| TunnelProgress.AttemptsMoveOn | internal/proxy/manager.go:154-205 | every step of an attempt brings it further or ends it, and nobody else moves it |
| TunnelProgress.ExitsAdvance | internal/proxy/manager.go:168-203 | after any run, when a tracked process has exited, the next step that takes it out of the table can be taken |
| TunnelTimed.RunKeepsInv | internal/proxy/manager.go:154-239 | every timed run keeps timers and entries paired, and every process owned once and signalled at most once |
| TunnelTimed.TimersPairWithTunnels | internal/proxy/manager.go:155-193 | armed timers and tracked entries correspond one to one, each due at the last successful ensure of its key plus its ttl, at once if that is zero or less |
| TunnelTimed.StepLeavesOthers | internal/proxy/manager.go:154-221 | a step refreshes, registers or ends at most one tunnel and leaves every other as it was, timer included |
| TunnelTimed.LastUseIsLastEnsure | internal/proxy/manager.go:155-193 | the recorded last use is the last refresh or registration of the run |
| TunnelTimed.NoneOutlivesItsUse | internal/proxy/manager.go:155-221 | no tunnel is tracked past its last use plus its ttl |
| TunnelTimed.TtlKillIsDue | internal/proxy/manager.go:207-221 | a TTL kill happens at exactly the last use plus the ttl, and signals and removes exactly the tunnel then tracked |
| TunnelTimed.UsedTunnelNeverExpires | internal/proxy/manager.go:155-161 | a tunnel whose uses are closer together than its ttl is never killed by its TTL |
| TunnelTimed.EnsureGivesFullTtl | internal/proxy/manager.go:155-193 | a successful EnsureProxy leaves the tunnel tracked by the same process for a full ttl and touches no other tunnel |
| TunnelTimed.RegisteredAfterWindow | internal/proxy/manager.go:175-193 | a tunnel is registered exactly one second after the step of the run that spawned its process, with the ttl of that EnsureProxy |
| TunnelTimed.ClockNeverBlocks | internal/proxy/manager.go:155-239 | after any run, if time cannot pass then a TTL timer or a startup window is due; every starting process can exit, every tracked one exit or be killed |
| TunnelTimed.KillKeysEmptiesTable | internal/proxy/manager.go:229-239 | over any listing of the keys the loop empties the table, disarms every timer and signals exactly the tracked processes |
| TunnelManager.Manager.EnsureProcessProxy | internal/proxy/manager.go:154-176 | refreshes a tracked tunnel, or starts one, or fails to, leaving all else as it was |
| TunnelManager.Manager.ExitedEarly | internal/proxy/manager.go:178-185 | a process that dies inside its startup window is forgotten |
| TunnelManager.Manager.StartupElapsed | internal/proxy/manager.go:186-193 | a process that survives its startup window is registered under its key with a fresh entry and timer |
| TunnelManager.Manager.ProcessExited | internal/proxy/manager.go:195-203 | the waiter removes its own entry and stops its timer, or does nothing |
| TunnelManager.Manager.KillProcessEntry | internal/proxy/manager.go:207-221 | removes the entry of the key, stops its timer and signals its process; nothing without an entry |
| TunnelManager.Manager.TimerFires | internal/proxy/manager.go:190 | a due timer kills its key |
| TunnelManager.Manager.KillAllProcessProxies | internal/proxy/manager.go:229-239 | empties the table, leaves no timer armed, and signals exactly the processes that were tracked |
| TunnelRefinement.StepRefines | internal/proxy/manager.go:154-239 | what the clocked manager does in one step the goroutines can do in a few |
| TunnelRefinement.TimedRunsAreFineRuns | internal/proxy/manager.go:154-239 | every run of the clocked manager is matched by a run of the goroutines: same tunnels, same processes, same attempts, same signals |
| TtlCache.TTLCache.Get | internal/cache/cache.go:36-51 | returns a value exactly when the operations so far call for it: the last that affects the key is a Set of it at most ttl ago; an expired entry is evicted |
| TtlCache.TTLCache.Set | internal/cache/cache.go:54-59 | stores the value until now plus ttl and keeps answers and operations in agreement |
| TtlCache.TTLCache.Delete | internal/cache/cache.go:62-67 | removes the key only |
| TtlCache.TTLCache.Clear | internal/cache/cache.go:70-75 | removes everything |
| TtlCache.AgreesAfter | internal/cache/cache.go:36-75 | every operation keeps the table in agreement with the operations, from its instant on |
| TtlCache.ReplayAnswers | internal/cache/cache.go:36-75 | for whole histories with a monotone clock: visible if and only if the last affecting operation is a Set at most ttl ago |
| TtlCache.ReadsObservableIff | internal/cache/cache.go:45-49 | over any history and with any clock, the reads change what is answered if and only if the last operation that affects the key is a Set still unexpired by the clock of the answer, and a read after it had a clock past its expiry |
| TtlCache.ReadsLeaveNoTrace | internal/cache/cache.go:45-49 | so with a monotone clock, such as the program's own, dropping all reads from a history changes no later answer |
| CacheKeys.KubeconfigKeyInjective | internal/capi/store.go:44-46 | two clusters with any fields share a kubeconfig key if and only if they have the same pieces between colons; where namespaces and names hold no colon and the kubeconfig names are not confusable, that is the same cluster, for any contexts |
| CacheKeys.ColonsMoveBetweenFields | internal/capi/store.go:44-46 | a colon can move from context to namespace without changing the key, within one kubeconfig |
| CacheKeys.KeysCollideIff | internal/capi/store.go:44-46 | clusters of two different kubeconfig names can share a key if and only if one name, continued by a colon, begins the other, and then also clusters with colon-free namespaces and names |
| CacheKeys.ConfusionNeedsColon | internal/capi/store.go:44-46 | colon-free names are never confusable |
| CacheKeys.ConfusableNamesCollide | internal/capi/store.go:44-46 | two different clusters with one key, for each pair of confusable names |
| CacheKeys.ListKeysCollideIff | internal/capi/store.go:40-42 | cluster-list keys collide under the same condition, and never within one kubeconfig |
| CacheKeys.TargetKeyInjective | internal/proxy/manager.go:27-29 | different API servers have different tunnel keys, even with colons in the address |
| KubeconfigAnswers.AllAnswerIff | internal/server/kubeconfig.go:23-72 | for any set of clusters asked for: in every interleaved run each call that returns answers with the transform of a Secret, and has ensured the tunnel to the API server, that a step of the run read for exactly its cluster, a step of its own or of a call whose return came at most ttl before its cache lookup, if and only if no two of those clusters share a cache key, or nothing stays cached, or no Secret has a transform |
| KubeconfigAnswers.SharedKeyAnswersForAnother | internal/server/kubeconfig.go:29-38 | for any two clusters with one key, a run in which the second is answered with the Secret of the first |
| KubeconfigAnswers.ReturnsAFetchOfItsCluster | internal/server/kubeconfig.go:23-72 | in a run that asks for no two clusters with one key, every call that returns answers for its own cluster, from a fetch of its own or one stored at most ttl before it looked |
| KubeconfigAnswers.RunKeepsLog | internal/server/kubeconfig.go:31-71 | the recorded origins of entries and calls are steps of the run, in order, with the clock at them |
| KubeconfigPipeline.FailedCallsNeverStore | internal/server/kubeconfig.go:31-71 | after any run, what is cached under a key is what the call that fetched it for that key has returned, so a call that failed has stored nothing; which calls fail is stated in KubeconfigOutcomes |
| KubeconfigPipeline.RunKeepsValues | internal/server/kubeconfig.go:31-70 | every run keeps each entry and each call tied to the fetch its value comes from: the transform of the Secret, and a tunnel if and only if a host is configured and the API server restricted, to that server through that host |
| KubeconfigPipeline.ReturnFollowsEnsure | internal/server/kubeconfig.go:31-37 | a kubeconfig that needs a tunnel is returned, cached or not, only after an EnsureProxy of the same call succeeded |
| KubeconfigOutcomes.SharedAttemptFails | internal/proxy/manager.go:94-103 | when an attempt fails, exactly the calls that wait for it have failed, and nothing is stored |
| KubeconfigOutcomes.SharedAttemptSucceeds | internal/proxy/manager.go:94-103 | when it succeeds, exactly they go on, each with its own kubeconfig |
| KubeconfigOutcomes.EarlyExitFailsItsCalls | internal/server/kubeconfig.go:32-36 | a process that dies inside its startup window fails every call that waits for it, whatever the run does afterwards |
| KubeconfigOutcomes.ErrorsFailTheirCall | internal/server/kubeconfig.go:40-66 | a read, a transform or a spawn that errs fails its call, whatever the run does afterwards |
| KubeconfigOutcomes.ReturnedWaitedThroughNoExit | internal/server/kubeconfig.go:32-71 | in no run does a call that returns wait at a moment at which the process it waits for exits inside its startup window |
| KubeconfigOutcomes.WaitersHaveAnAttempt | internal/proxy/manager.go:94-103 | after any run, a call that waits has an attempt to wait for, which can fail at once and succeeds once its window has elapsed |
| KubeconfigOutcomes.TunnelsAreForServers | internal/proxy/manager.go:27-29 | two kubeconfigs share a tunnel if and only if their API servers have the same address and port |
| KubeconfigOutcomes.HostIsOwnOrGlobal | internal/server/kubeconfig.go:24-27 | the host is the source's own if it has one, else the global one |
| KubeconfigProgress.InProgramOrder | internal/server/kubeconfig.go:31-71 | in any run a call looks into the cache first and once, reads only if it found nothing, ensures its tunnel once after a hit or a read, and returns after one of these |
| KubeconfigProgress.CallsAdvance | internal/server/kubeconfig.go:31-71 | after any run, a call that has neither returned nor failed can take its next step, or waits for an attempt that can |
| KubeconfigProgress.TunnelsGoOn | internal/server/kubeconfig.go:33-63 | every step that the tunnels and the clock can take by themselves they can take beside the calls |
| KubeconfigProgress.CachedUntilExpiry | internal/cache/cache.go:36-59 | in any run a cached kubeconfig, or a later one for its key, is visible until it expires |
| KubeconfigTunnels.UpUntilIffEnsuredSince | internal/proxy/manager.go:155-221 | for any run of the pipeline: an undisturbed tunnel is up until a moment, or was ended by its TTL at that very moment, if and only if it was last ensured at most a ttl before it |
| KubeconfigTunnels.CachedKubeconfigHasTunnelIff | internal/server/kubeconfig.go:28-71 | for any run, whenever the cache would answer: the tunnel of a cached kubeconfig, undisturbed, is up until the entry expires, or its TTL fired at the instant of that expiry, if and only if it was last ensured no earlier than the entry was stored |
| KubeconfigTunnels.ReturnsWithTunnelUpIff | internal/server/kubeconfig.go:31-71 | for any run, a call about to return has its undisturbed tunnel up for a full ttl if and only if the tunnel was ensured at this instant |
| KubeconfigTunnels.CachedKubeconfigsHaveTunnels | internal/server/kubeconfig.go:28-71 | so with prompt calls every cached kubeconfig that needs a tunnel has one due no earlier than the entry's expiry, unless it exited or KillAll came by since it was last ensured, or its TTL fired at the instant of that expiry |
| KubeconfigTunnels.ReturnsWithTunnelUp | internal/server/kubeconfig.go:31-71 | and a prompt call about to return has its tunnel up for a full ttl, with the same exceptions |
| KubeconfigTunnels.StepKeepsFate | internal/server/kubeconfig.go:28-71 | every step keeps: an ensured and undisturbed tunnel is tracked until its TTL timer fires, at its deadline |
| KubeconfigTunnels.StepKeepsLinks | internal/server/kubeconfig.go:31-71 | every step keeps: calls past their EnsureProxy, and the entries they store, have had their tunnel ensured |
| KubeconfigTunnels.StoredAtIsLastStored | internal/server/kubeconfig.go:70 | the time an entry was stored is that of the last return of a fetching call for its key |
| KubeconfigTunnels.ExcusedIffDisturbed | internal/proxy/manager.go:195-239 | the exception is read off the run: an exit or a kill by KillAll after the last ensure |
| KubeconfigTunnels.PipelineRunsTheManager | internal/server/kubeconfig.go:33-63 | a run of the pipeline is for the tunnels a run of the clocked manager |
| KubeconfigTunnels.LateReturnOutlivesItsTunnel | internal/server/kubeconfig.go:63-70 | a run without promptness in which a cached entry outlives its tunnel |
| ToolServer.ToolServer.CachedKubeconfigFor | internal/server/kubeconfig.go:23-72 | on a hit or a miss: the answer, what is stored, and what happens to the tunnel, with every error path storing nothing |
| ToolServer.UncachedIff | internal/server/kubeconfig.go:40-68 | without a cache a call has an answer if and only if the Secret is read, the transform accepts it and, where a host is configured, the API server is learned; the answer is the transform, with a tunnel exactly if the server is restricted and a host configured |
| ToolServer.ToolServer.EnsureProxy | internal/proxy/manager.go:94-103 | joins the attempt that runs for the key or makes one |
| ToolServer.ToolServer.Finish | internal/server/kubeconfig.go:70-71 | a fetched kubeconfig is stored until now plus ttl, a cached one is not stored again |
| ToolServer.ToolServer.ResolveTarget | internal/server/target.go:43-53 | an unparsable target or unknown kubeconfig is refused and changes nothing; else the call is made for the cluster the target leads to |
| ToolServer.TargetsLeadToTheirClusters | internal/server/target.go:43-53 | a target leads to a cluster if and only if it is that cluster's own target string, free of slashes in its fields |
| ToolServer.CallIsARun | internal/server/kubeconfig.go:23-72 | what the method does to the objects is what a run of the pipeline does to its state, from any state |
| ToolServer.TargetsGetTheirOwnIff | internal/server/target.go:43-53 | for any set of targets, in whatever runs: each that succeeds answers for its own cluster if and only if no two of their clusters share a cache key, or nothing stays cached, or no Secret has a transform |
| ToolServer.ColonTargetsShareAKey | internal/server/target.go:43-53 | two targets of one kubeconfig that lead to different clusters with one cache key, since only slashes are looked for |
| ToolServer.ColonTargetGetsAnothers | internal/server/target.go:43-53 | a run in which the second of them is answered with the Secret of the first |
| ToolServer.EachTargetGetsItsOwn | internal/server/tools.go:82-112 | the calls of a fan-out share cache and tunnels with each other and with all others, and where no two clusters asked for share a cache key each entry that succeeds answers for its own target's cluster |
| ClusterListing.Lister.ListClustersCached | internal/server/resolve.go:36-52 | answers the list visible at its first clock reading, else what the cluster answers, and stores only a fetched list, until ttl after its second reading |
| ClusterListing.Lister.AllResolvedClusters | internal/server/resolve.go:16-34 | one listing goes through item after item while the clock moves on, up to the first failure; what it lists is the lists the items got, cluster k of list m at its place after all earlier lists and under its own source, and nothing else; with no two contexts that share a cache key it succeeds exactly when every context can be listed, and those are the contexts' own lists |
| ClusterListing.ItemsEnumerateContexts | internal/server/resolve.go:18-24 | the items of a listing are every context of every source, each at its place, and a failure for each source whose contexts cannot be read |
| ClusterListing.ListsInPlace | internal/server/resolve.go:28-30 | for every table, answers and clock a listing that succeeds is the lists of its items side by side, each from the table as it stood at its turn |
| ClusterListing.ListingIsRightIff | internal/server/resolve.go:16-52 | a listing is right for every cache, every answer and every pace of the clock if and only if no two different contexts share a cache key, or nothing stays cached, or some kubeconfig cannot be read anyway |
| ClusterListing.NamesApartKeepKeysApart | internal/server/resolve.go:37 | names that are not confusable keep the keys of all contexts apart |
| ClusterListing.ListedAtOnceIsCached | internal/server/resolve.go:36-52 | after a listing that took no time every list is cached |
| ClusterListing.CachedListingAsksNothing | internal/server/resolve.go:36-40 | a listing with every list cached does not depend on the management clusters |
| ClusterListing.ConfusableSourcesMix | internal/server/resolve.go:37-40 | of two sources with confusable names, one is shown the clusters of the other for as long as they are cached |
| ListPipeline.RunKeepsInv | internal/server/resolve.go:16-52 | while listings run beside each other, every cached list and every list of a listing comes from a fetch for a context with its key |
| ListPipeline.AllRightIff | internal/server/resolve.go:16-52 | for any set of contexts listed: whatever listings run beside each other, and though the management clusters answer anew each time, every list of a listing that returns was fetched for its very context, by itself or by a listing that stored it at most ttl before it looked, if and only if no two of the contexts share a cache key or nothing stays cached |
| ListPipeline.SharedKeyListsAnother | internal/server/resolve.go:37-40 | for any two contexts with one key, a run in which a listing of the second returns what was fetched for the first |
| ListPipeline.ErrorsFailTheirListing | internal/server/resolve.go:25-28 | one context that cannot be listed fails its listing for good, and stores nothing |
| ListProgress.InProgramOrder | internal/server/resolve.go:36-52 | in any run a listing looks a context up first and once, fetches it only if nothing was found, and stores what it fetched before it turns to the next |
| ListProgress.ListingsAdvance | internal/server/resolve.go:16-52 | after any run, a listing that has neither returned nor failed can take its next step |
| ListProgress.CachedForTtl | internal/server/resolve.go:50 | in any run a stored list, or a later one for its key, is visible for a ttl |
| Targets.ParseOfFormat | internal/capi/target.go:11-23 | parsing a formatted cluster recovers it if and only if its fields are slash-free, and errs otherwise |
| Targets.TargetIsPath | internal/capi/target.go:11-13 | a target is kubeconfig, context, namespace and name, in this order, with slashes between |
| Targets.FormatOfParse | internal/capi/target.go:11-23 | formatting what parsed gives the original string, and its fields are slash-free |
| Targets.FormatInjective | internal/capi/target.go:11-13 | slash-free clusters format alike only if they are the same |
| Targets.ExactIffFourSegments | internal/capi/target_pattern.go:22-52 | a pattern that parses is exact if and only if it has four segments |
| Targets.ExactFormatsBack | internal/capi/resolve_patterns.go:58-64 | formatting an exact pattern's fields gives the string it was parsed from |
| Targets.MatchesIffFieldPrefix | internal/capi/target_pattern.go:55-69 | a pattern matches a cluster if and only if its segments are the cluster's first fields |
| Targets.MatchesIffSegmentPrefix | internal/capi/target_pattern.go:28-69 | on slash-free clusters that is string prefix at a segment boundary |
| Targets.SegmentPrefixIffOutOfReach | internal/capi/target_pattern.go:28-69 | for a cluster with any fields, matching is segment-boundary string prefix for every pattern if and only if each field that holds a slash is, or comes after, a field that is empty or begins with a slash |
| Targets.SlashBreaksSegmentPrefix | internal/capi/target_pattern.go:55-69 | a cluster with a slash inside a field, and a pattern that ends there: the string continues the pattern, the fields do not match |
| Targets.ExpandTargetPattern | internal/capi/target_pattern.go:73-81 | collects the target strings of the matching clusters, in order, repetitions kept |
| Targets.ExpansionMembers | internal/capi/target_pattern.go:73-81 | a string is in an expansion if and only if it is the target string of a matching cluster |
| Targets.ExpansionSelects | internal/capi/target_pattern.go:73-81 | an expansion is the target strings of the matching clusters at their positions in the listing, in order and with repetitions |
| ResolvePatterns.DedupePreserveOrder | internal/capi/resolve_patterns.go:78-88 | the loop over `seen` and `out` computes the deduplication |
| ResolvePatterns.DedupIsFirstSeen | internal/capi/resolve_patterns.go:78-88 | which holds the same elements, each once, in the order of their first occurrence |
| ResolvePatterns.ResolveClusterPatterns | internal/capi/resolve_patterns.go:22-76 | answers as specified, errs exactly when specified, calls listKnown once if lenient with a partial pattern, else never, and returns its error if it fails |
| ResolvePatterns.LenientWithoutKnownIff | internal/capi/resolve_patterns.go:32-53 | with a failing listKnown a lenient call succeeds if and only if every pattern parses and is exact, and then with the patterns themselves, first seen |
| ResolvePatterns.LenientIsDenotation | internal/capi/resolve_patterns.go:32-75 | the lenient answer is the first-seen listing of the patterns' denotations in order, whether or not the clusters were listed |
| ResolvePatterns.AppendingExtends | internal/capi/resolve_patterns.go:54-75 | appending patterns only extends the answer |
| ResolvePatterns.StrictAgreesWithLenientIff | internal/capi/resolve_patterns.go:22-76 | where strict succeeds, lenient gives the same if and only if no entry has an empty segment |
| ResolvePatterns.StrictNeverWidens | internal/capi/resolve_patterns.go:23-30 | a strict answer consists of the caller's own full paths, and the known clusters play no part |
| KnownClusters.ListTargets | internal/server/target.go:14-24 | the target strings of the resolved clusters, by position |
| KnownClusters.ListKnownClusters | internal/embed/fanout.go:109-123 | the targets that parse, in order, as clusters |
| KnownClusters.EmbeddedListIsSlashFreeOnes | internal/embed/fanout.go:109-123 | formatting and parsing back yields exactly the slash-free clusters, in order, without custom fields |
| KnownClusters.SlashFreeOnesSelect | internal/embed/fanout.go:109-123 | which keeps listing order and repetitions |
| KnownClusters.PathsAgreeIff | internal/embed/fanout.go:109-123 | the embedded tools and the server resolve every pattern list alike if and only if each slashed cluster is one no pattern can select |
| KnownClusters.SlashedClusterIsMissed | internal/embed/fanout.go:115-119 | a selectable cluster with a slash is missing from what the embedded tools resolve |
| KnownClusters.ListedIff | internal/server/tools.go:43-63 | which strings the match set holds, for clusters with any fields |
| KnownClusters.ListedIffTwinMatched | internal/server/tools.go:54-61 | a cluster is listed if and only if a cluster with its target string is matched |
| KnownClusters.ListingIsExactIff | internal/server/tools.go:43-63 | filtering through the set of strings keeps exactly the matched clusters, in order and multiplicity, if and only if no unmatched cluster shares a target string with a matched one |
| KnownClusters.ListedOnesSelect | internal/server/tools.go:54-61 | what is listed is the clusters with their string in the match set, in listing order and with repetitions |
| KnownClusters.MatchedOnesSelect | internal/server/tools.go:43-63 | and the matched clusters are those that some pattern matches, in listing order and with repetitions |
| KnownClusters.SlashFreeListingIsExact | internal/server/tools.go:43-63 | so it does when all fields are slash-free |
| KnownClusters.ListClusters | internal/server/tools.go:37-63 | the listing loop: everything without patterns, the filtered list with them, an error exactly when a pattern does not parse |
| KnownClusters.SlashesListTooMuch | internal/server/tools.go:54-61 | a cluster that is listed though no pattern matches it |
| KnownClusters.KnownFrom | internal/embed/fanout.go:109-123 | the known clusters are an error, the resolver's own, exactly if it errs |
| KnownClusters.SelectTargets | internal/embed/fanout.go:39-94 | an embedded tool that is not read-only runs on nothing but the caller's own full paths, each once; a read-only one on the denotation of its patterns or, without the parameter, on every target; if the targets cannot be listed, on patterns that are all exact or on nothing |
| FanOut.RunFanOut | internal/embed/fanout.go:135-164 | for every completion order slot by slot the results are what the goroutines came up with, and the call is an error if and only if one of them failed; where the answers are a function of the target they are that function by position |
| FanOut.ResolvedHandledOnce | internal/capi/resolve_patterns.go:54-88 | each resolved target occurs once in the resolved list, so a fan-out handles it once |
| OutputLimit.LimitedWriter.Write | internal/shell/shell.go:93-99 | counts every write, and keeps it if the total so far fits |
| OutputLimit.Capture | internal/shell/shell.go:59-77 | for every interleaving each buffer holds exactly its stream's bytes of the longest prefix of writes that fits the cap, together they never exceed it, and after a refused write all are refused; without a cap all is kept |
| OutputLimit.BytesInOrder | internal/shell/shell.go:93-99 | byte k of a write stands in its stream after all bytes of the stream's earlier writes and k of its own |
| ExpandEnv.MatchIsLongestReference | internal/config/config.go:48 | the scanner finds a match exactly where the expression has one, takes the longest and captures its name |
| ExpandEnv.IdentifierCharacters | internal/config/config.go:48 | a bare name begins with a letter or underscore and goes on with these or digits, character by character |
| ExpandEnv.RematchCapturesSameName | internal/config/config.go:51-56 | matching the matched text again captures the same name |
| ExpandEnv.ScanIsLossless | internal/config/config.go:50-59 | printing the tokens gives the input back |
| ExpandEnv.ScanIsLeftmostLongest | internal/config/config.go:50-59 | no match starts at a literal, and every reference is the longest match at its place |
| ExpandEnv.ScanIsUnique | internal/config/config.go:50-59 | no other tokens of the string have that property |
| ExpandEnv.ExpansionOfTokens | internal/config/config.go:50-59 | the result is the literals and the values side by side; a value is never scanned again |
| ReadOnlyRbac.EnsureAccountAndRole | internal/capi/readonly.go:47-61 | the account exists and the role is as desired on success; nothing else changes |
| ReadOnlyRbac.ReplaceBinding | internal/capi/readonly.go:71-82 | an existing binding is as desired on success, deleted and recreated if its roleRef has changed and that is recognised |
| ReadOnlyRbac.EnsureBinding | internal/capi/readonly.go:63-82 | the binding is as desired on success, created or replaced; nothing else changes |
| ReadOnlyRbac.EnsureReadOnlyRBAC | internal/capi/readonly.go:46-83 | from every state, under every pattern of failing calls: success means the desired state, in which the account can read everything and do nothing else; no other object is touched, a desired state is left alone; without failures it succeeds if and only if the binding's roleRef is unchanged or its report recognised |
| ReadOnlyRbac.DesiredReadsAndNoMore | internal/capi/readonly.go:24-36 | in the desired state the binding, read through the role it refers to, grants the read-only account get, list and watch on every resource and get on every URL, no other verb, and nobody else anything |
| ReadOnlyRbac.EnsureThenRetry | internal/capi/readonly.go:46-83 | a run cut short anywhere leaves a state from which a retry succeeds under the same condition |
| ReadOnlyRbac.ReportsRecognisedOrNot | internal/capi/readonly.go:38-40 | a report that is recognised; without either word, or for another reason, it is not |
| ReadOnlyRbac.ContainsIff | internal/capi/readonly.go:38-40 | a message contains a word if and only if it is something, the word and something |

## Left out

- The systemd path of the tunnel manager (`internal/proxy/manager.go:111-152`): what its two command lines do is systemd's.
- Processes that run on after a SIGTERM: a signalled process may still be dying while its successor starts, and no property says otherwise.
- singleflight, mutexes, `time.AfterFunc` and channels are taken at their contracts; that a goroutine is eventually scheduled is not modelled, so nothing is claimed to happen by itself.
- `TunnelTimed` and the pipeline take timers to be punctual; the finer model has no clock and no such assumption.
- KubeconfigTunnels.CachedKubeconfigsHaveTunnels: assumes that no time passes between the success of a call's EnsureProxy and its return; CachedKubeconfigHasTunnelIff says exactly what holds without that.
- The reads of one cachedKubeconfig call from the management cluster (Secret and API server address) are one step.
- ClusterListing.Lister.AllResolvedClusters: one listing by itself, with answers fixed for its duration; `ListPipeline` has neither assumption. The kubeconfigs come sorted by name, and the sorting is not modelled.
- Error texts: errors are told apart only where the code tells them apart.
- FanOut.RunFanOut: each goroutine's write of its slot is one step; what its call does before that is any answer at all.
- Int overflow of `sharedLimit.written`, and unsynchronised access to it from two copying goroutines: each Write is one atomic step.
- Invalid UTF-8 in configuration strings: ExpandEnv works on sequences of characters.
- `CAPICluster.CustomFields` is carried as opaque data; JSON rendering of results is not modelled.
- Minting the read-only token and building the kubeconfig from it (CreateReadOnlyKubeconfig in `internal/capi/readonly.go`), jq, YAML, client-go, OpenStack environments, config field defaults and JSON schema rewriting: library calls or field copying.
- The memo table of the embedded provider, HTTP and stdio serving, the host check, and tool registration: wiring.
- RBAC rules match a verb, group, resource or URL by "*" or by its exact name; URL prefixes with a trailing star, which the rules here do not use, are not modelled.
