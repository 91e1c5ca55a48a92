# Cockpit backend: a verified model

The backend forwards requests for language models to upstream accounts. This project models
the parts of it whose correctness is hardest to see, and proves what they are for.

- **Credential scheduler** (`Ordering`, `Credentials`, `Rotation`, `ShardIndex`, `ShardCursors`, `Shards`, `Providers`,
  `Selection`, `Gathering`, `Websockets`, `Scheduler`, `SchedulerRuns`, `SinglePicks`, `Fairness`): an incremental
  index over credentials (providers, model shards, priority buckets, cooldown lists, round-robin cursors) against
  the rescan it replaces.
- **Model registry** (`RegistryState`, `RegistryListing`, `RegistryAvailability`, `Registry`, `RegistryRuns`,
  `RegistryNotices`): reference counters, reconciled differentially, against adding up the clients' lists; cached
  answers against fresh ones; what results tell the registry against what it offers.
- **Watcher and service** (`UpdateQueue`, `Watcher`): snapshots become coalesced updates, which are delivered in
  batches to a consumer that must end up where the watcher is.
- **Failures and retries** (`Backoff`, `Failures`, `Results`, `Retry`): what a result does to a credential, how
  model cooldowns add up to the credential's, and how long a request may go on.
- **Translators** (`ToolNames`, `FixJson`, `CodexStream`, `CodexText`, `Transcript`): tool names there and back,
  quotes in loose JSON, streamed against whole responses, and the transcript of a websocket session.

Classes of the program are classes here, with the same fields; its loops are loops with invariants. Each is
proved against a specification on values, and the main results are lemmas about that specification or
statements about whole runs (`SchedulerRuns.Replay`, `RegistryRuns.Serve`, `Watcher.Session`, `Retry.Execute`,
`Transcript.RunSession`).

## What turned out differently

Where the program does less than its comments or its tests suggest, the exact condition is proved, and concrete
inputs show the failure:

- The index holds a credential back past its retry time exactly when its quota recovers later
  (`Credentials.PromotionIsExact`, `Credentials.LateQuotaIsHeldBack`). Results can bring this about: a transient
  error that arrives during a longer quota cooldown (`Results.PunctualAfterFailure`,
  `Results.WholePunctualAfterFailure`), and aggregation (`Failures.AggregatePunctualExactly`,
  `Failures.AggregateNeedNotBePunctual`). It is never held back past both times (`Credentials.DueIsReady`), so that
  nobody who is due is passed over, and the rebuild after a refusal makes up for the rest where a model is
  requested (`SchedulerRuns.PickNextMixed`).
- With several providers, fill-first in the scheduler goes by the order of the providers, in the rescan by
  credential ID: the picks agree exactly when the best candidate leads that order (`Gathering.MixedAgreement`,
  `Gathering.ProvidersMayDisagree`).
- A model state kept under a name with a thinking suffix counts in the rescan only. The verdicts are the same
  exactly when both names are free from the same instant and rest on the same grounds
  (`SchedulerRuns.VerdictsAlike`, `SchedulerRuns.SuffixMayDiffer`).
- Where websockets are preferred, one that was tried hides the credentials of its priority that have none: the
  scheduler picks lower or refuses, the rescan does not (`Websockets.PreferencesAgree`,
  `Websockets.RefusedThoughFree`, `Websockets.TriedSocketHides`).
- Without any usable provider key the scheduler path says not found where the rescan says no provider
  (`SchedulerRuns.AnswersAgree`).
- A credential whose tracked models are all switched off counts as free (`Failures.AggregateAgrees`).
- Re-registering keeps or clears marks that unregistering and registering would not
  (`RegistryListing.Reregistration`, `RegistryState.StaleMarkSurvives`). Cooldown suspensions have no influence
  on which models are offered (`RegistryAvailability.AvailabilityRule`). A client that is out for quota keeps that
  reason when it is refused for good later, and so does not hide the model (`RegistryNotices.FirstReasonStays`).
- A runtime update without its own ID, or with the wrong auth, can leave the consumer behind
  (`UpdateQueue.SafeExactly`). The consumer keeps model states that the watcher's snapshot has lost, for good
  (`UpdateQueue.EqualExactly`, `UpdateQueue.StatesLinger`), and coalescing a deletion with a re-addition keeps more
  of them (`UpdateQueue.Coalescing`).
- A client gathers the calls of the whole response from a Codex stream exactly when no call is brought up during
  another and the arguments of announced calls come in argument events (`CodexStream.StreamIsNonStream`): else
  they go to the call announced last (`CodexStream.InterleavedGoAstray`) or are lost
  (`CodexStream.LateArgumentsAreLost`). The converter of whole responses says `stop` even where there are tool
  calls (`CodexStream.FinishReasons`), keeps one text part of the answer where a stream shows all, and has no blank
  lines in the reasoning (`CodexText.AnswersAgree`, `CodexText.ReasoningAgrees`).

## Conventions

Time is a natural number of nanoseconds, 0 is the unset time. A locked call is one step at one instant, with the
clock as a parameter. IDs carry no surrounding blanks, providers are lower-case, a model name has at most one
suffix. Shards hold IDs where the program holds pointers; snapshots are values. Which models a credential
supports is fixed when it is entered in the scheduler, and every requested provider has an executor. Tool names
are byte sequences, text in `FixJson` is a sequence of runes, JSON documents are records, and array elements in
`Transcript` are raw texts. Maps are visited in any order. In `Retry` upstream answers, picks, cancellations and
the clock are functions of the number of the consultation, so a statement for all environments covers every
behaviour of the outside world; in `Watcher` the preparation of updates and their enqueuing are one step.

## Model

| member | source | states |
|---|---|---|
| Credentials.BlockedOnlyClears | sdk/cockpit/auth/selector.go:298-355 | on one snapshot a credential that is free for a model stays free at every later time |
| Credentials.HeldHasFutureRetry | sdk/cockpit/auth/scheduler_shards.go:96-111 | an entry that is held back carries a retry time later than its evaluation |
| Credentials.DueIsReady | sdk/cockpit/auth/scheduler_shards.go:132-164 | no wake-up is lost: whenever an entry was last evaluated, a promotion makes it ready if and only if its snapshot is due, that is free and with the recovery time of its quota, if it has a retry time, passed; some evaluation makes it ready if and only if the snapshot is free |
| Credentials.PunctualIsDue | sdk/cockpit/auth/scheduler_shards.go:132-164 | a punctual snapshot is due exactly when it is free |
| Credentials.ReadyStaysFree | sdk/cockpit/auth/scheduler_shards.go:96-111 | whatever an index calls ready is not blocked at any time from its evaluation on |
| Credentials.PromotionIsExact | sdk/cockpit/auth/scheduler_shards.go:132-164 | promoting by clock gives the fresh verdict from every earlier evaluation if and only if the quota recovers no later than the retry time |
| Credentials.PromotedIsFresh | sdk/cockpit/auth/scheduler_shards.go:132-164 | a faithful entry of a punctual snapshot is, once promoted, what an evaluation now would say |
| Credentials.LateQuotaIsHeldBack | sdk/cockpit/auth/scheduler_shards.go:132-164 | a concrete snapshot, with a quota that recovers after the retry time, that the index holds back although the rescan calls it free |
| Rotation.Turn | sdk/cockpit/auth/scheduler_roundrobin.go:42-60 | the turn is an accepted position, or none exactly when no position is accepted |
| Rotation.TurnFails | sdk/cockpit/auth/scheduler_roundrobin.go:50-59 | the cyclic search fails exactly when nothing is accepted |
| Rotation.Fairness | sdk/cockpit/auth/scheduler_roundrobin.go:42-60 | from any cursor, as many turns in a row as there are accepted entries visit each of them exactly once |
| Rotation.HasItsTurn | sdk/cockpit/auth/scheduler_roundrobin.go:42-60 | every accepted entry has its turn within one round |
| ShardIndex.IndexUnique | sdk/cockpit/auth/scheduler_shards.go:276-320 | the entries determine the index: buckets, priority order and blocked list |
| ShardIndex.SkippedRebuild | sdk/cockpit/auth/scheduler_shards.go:113-116 | when state, retry time, priority and websocket flag are unchanged the index before the upsert is an index of the entries after it |
| ShardIndex.SortByRetry | sdk/cockpit/auth/scheduler_shards.go:303-319 | the blocked list in the order of retry times, unset ones last, ties by ID |
| ShardIndex.PromotedEntries | sdk/cockpit/auth/scheduler_shards.go:132-164 | promoting the entries of the blocked list promotes every entry that is due |
| ShardIndex.TurnIsPick | sdk/cockpit/auth/scheduler_shards.go:201-225 | a round-robin turn is a pick among the allowed ready entries of the priority, and none only if there is none |
| ShardIndex.FirstIsPick | sdk/cockpit/auth/scheduler_shards.go:201-225 | the first allowed entry is the one with the least ID, and none only if there is none |
| ShardCursors.PrioritiesListed | sdk/cockpit/auth/scheduler_shards.go:276-301 | the views that a rebuild makes, and whose cursors start at zero, are those of the priorities with a ready entry |
| ShardCursors.RotatesInListing | sdk/cockpit/auth/scheduler_roundrobin.go:42-60 | a lookup that takes turns picks the entry in turn in any sorted listing of the view, and moves the cursor of that view only |
| Shards.ReadyView.PickFirst | sdk/cockpit/auth/scheduler_roundrobin.go:33-40 | the first entry of the view that is allowed |
| Shards.ReadyView.PickRoundRobin | sdk/cockpit/auth/scheduler_roundrobin.go:42-60 | the turn of the view from its cursor, and the cursor just behind it |
| Shards.ModelScheduler.BuildReadyBucket | sdk/cockpit/auth/scheduler_roundrobin.go:15-30 | both views of a bucket, the second with the websocket entries in the same order |
| Shards.ModelScheduler.RebuildIndexes | sdk/cockpit/auth/scheduler_shards.go:276-320 | the fields are an index of the entries again, in views of their own that all start over |
| Shards.ModelScheduler.UpsertEntry | sdk/cockpit/auth/scheduler_shards.go:78-117 | the entry holds the verdict of now, all others are as before, and the index is one of the new entries whether or not it was rebuilt; the views start over unless the entry keeps its place |
| Shards.ModelScheduler.RemoveEntry | sdk/cockpit/auth/scheduler_shards.go:120-129 | the entry is gone, the others stay, the index is one of what is left; the views start over if it was there |
| Shards.ModelScheduler.PromoteExpired | sdk/cockpit/auth/scheduler_shards.go:132-164 | every entry that is due holds the verdict of now; the views start over exactly if one was |
| Shards.ModelScheduler.HighestReadyPriority | sdk/cockpit/auth/scheduler_shards.go:181-199 | the greatest priority with an allowed ready entry, or none if there is no such entry |
| Shards.ModelScheduler.PickReadyAtPriority | sdk/cockpit/auth/scheduler_shards.go:203-225 | a pick of the priority under the strategy; taking turns it is the entry in turn in the view, whose cursor is behind it then, and no other cursor of the shard moves; filling first none does |
| Shards.ModelScheduler.PickReady | sdk/cockpit/auth/scheduler_shards.go:167-177 | a pick of the greatest priority that has one; taking turns it is the entry in turn, counted from where the view stands after the promotion, and only the cursor of that view moves |
| Shards.ModelScheduler.AvailabilitySummary | sdk/cockpit/auth/scheduler_shards.go:249-273 | the number of allowed entries, of cooling ones among them, and their earliest retry time |
| Providers.SyncShard | sdk/cockpit/auth/scheduler_shards.go:14-23 | the shard holds the auths that support its model after one auth is replaced or removed |
| Providers.ProviderScheduler.UpsertAuth | sdk/cockpit/auth/scheduler_shards.go:9-24 | every shard of the provider holds exactly the supporting auths of the new set |
| Providers.ProviderScheduler.RemoveAuth | sdk/cockpit/auth/scheduler_shards.go:27-37 | the auth is in no shard any more, the others are where they were |
| Providers.ProviderScheduler.EnsureModel | sdk/cockpit/auth/scheduler_shards.go:40-62 | the shard of the model exists, and no held-back entry is past its retry time; the lookup changes nothing about what a lookup shows, entries and cursors |
| Providers.ProviderScheduler.BuildShard | sdk/cockpit/auth/scheduler_shards.go:49-61 | a shard built on first use holds the verdicts of now on exactly the supporting auths, and its views start at zero |
| Providers.ProviderScheduler.PickAt | sdk/cockpit/auth/scheduler_shards.go:203-225 | the pick of the shard at the priority; every entry stays, and of the cursors only that of the view moves, taking turns |
| Providers.ProviderScheduler.PickReadyAt | sdk/cockpit/auth/scheduler_shards.go:167-177 | the pick of the shard at its greatest priority with a choice, with the same said of entries and cursors |
| Scheduler.AuthScheduler.constructor | sdk/cockpit/auth/scheduler.go:76-84 | an empty scheduler is valid |
| Scheduler.AuthScheduler.UpsertAuth | sdk/cockpit/auth/scheduler.go:125-167 | the indexes are those of the snapshots with this one replaced; an auth that moves is under its new provider only |
| Scheduler.AuthScheduler.UpsertAuthLocked | sdk/cockpit/auth/scheduler.go:149-167 | as UpsertAuth, at one instant |
| Scheduler.AuthScheduler.RemoveAuth | sdk/cockpit/auth/scheduler.go:135-180 | the indexes are those of the snapshots without the auth |
| Scheduler.AuthScheduler.Rebuild | sdk/cockpit/auth/scheduler.go:109-122 | the indexes are those of the last snapshot of each listed auth |
| Scheduler.AuthScheduler.SetSelector | sdk/cockpit/auth/scheduler.go:98-106 | the strategy changes, the mixed cursors start over, the indexes stay |
| Scheduler.AuthScheduler.PickSingle | sdk/cockpit/auth/scheduler_selection.go:12-49 | the answer for one provider: for any snapshots a pick is an untried allowed supporting auth that is free now, of at least the priority of every due one, and a refusal means that none is due; for punctual snapshots or shards just built the greatest priority of all free ones, or a refusal of the right kind with the right reset time exactly when there is none; where websockets are preferred the same of the offers, which at a priority with free websockets, tried or not, are only those with one; it is what the shard as it shows at that instant offers at its best priority, taking turns the entry in turn, with the cursor of its view, and no other, moved behind it |
| Scheduler.AuthScheduler.PickPreferred | sdk/cockpit/auth/scheduler_selection.go:27-48 | the lookup in the shard where websockets are preferred: no due offer is passed over for any snapshots, and the best offer is picked for punctual ones |
| Scheduler.AuthScheduler.PickMixed | sdk/cockpit/auth/scheduler_selection.go:52-153 | the same over all requested providers, under both strategies, pinned or not; unpinned, a pick is at the best priority that the shards offer as they show at that instant, filling first from the first provider that offers it, taking turns from the provider in turn and within it the entry in turn, with the mixed cursor and the cursor of the view behind them, and every other cursor of the model where it was; a refusal means that nothing is offered and moves nothing; taking turns over punctual candidates the provider is the one in turn among those with a top candidate |
| Scheduler.AuthScheduler.PickInProvider | sdk/cockpit/auth/scheduler_selection.go:65-89 | the answer where the credential is pinned: nobody due is passed over for any snapshots, and the reference answer for punctual ones; the entry in turn of the shard, taking turns |
| Scheduler.AuthScheduler.PickAtBest | sdk/cockpit/auth/scheduler_selection.go:119-152 | the pick at the best priority found: provider and entry in turn with their cursors behind them, or the first provider that offers it and its first entry |
| Scheduler.AuthScheduler.PickFillFirst | sdk/cockpit/auth/scheduler_selection.go:119-131 | the pick of the first listed provider that has one at the best priority |
| Scheduler.AuthScheduler.PickInTurn | sdk/cockpit/auth/scheduler_selection.go:133-152 | the provider whose turn it is among those that have a pick, with the mixed cursor moved behind it |
| Scheduler.AuthScheduler.MixedUnavailable | sdk/cockpit/auth/scheduler_selection.go:156-188 | with nothing ready: not found, cooling down with the earliest reset over all providers, or unavailable, as adding everything up says |
| Scheduler.NormalizeProviderKeys | sdk/cockpit/auth/scheduler_selection.go:205-220 | the non-empty keys in order, each once |
| Selection.FillFirstUnique | sdk/cockpit/auth/selector.go:286-296 | the reference leaves fill-first one answer, down to the reset time of a refusal |
| Selection.CollectAvailable | sdk/cockpit/auth/selector.go:193-211 | the free candidates by priority, the number of cooling ones and their earliest retry time |
| Selection.GetAvailable | sdk/cockpit/auth/selector.go:213-248 | the free candidates of the greatest priority sorted by ID, or the failure the reference calls for |
| Selection.FillFirstPick | sdk/cockpit/auth/selector.go:287-296 | the free candidate of the greatest priority with the least ID, or the failure; where websockets are preferred, the least of those with one if there are any |
| Selection.PreferSockets | sdk/cockpit/auth/selector.go:169-191 | the listed credentials with a websocket in the same order, or all where none has one |
| Selection.PickNextLegacy | sdk/cockpit/auth/conductor_selection.go:55-112 | the rescan for one provider answers as the reference says, with or without the websocket preference |
| Selection.GatherCandidates | sdk/cockpit/auth/conductor_selection.go:160-194 | exactly the enabled, untried, allowed, supporting auths of the requested providers |
| Selection.CandidateRule | sdk/cockpit/auth/conductor_selection.go:170-194 | a candidate is an auth that none of the tests of the rescan turns down: switched off, not the pinned one, of another provider, tried, or without the model |
| Selection.PickNextMixedLegacy | sdk/cockpit/auth/conductor_selection.go:145-225 | the rescan answers as the reference says |
| Selection.FillFirstIsUntried | sdk/cockpit/auth/conductor_selection.go:170-194 | a pick of the rescan is an untried auth of the requested providers |
| Gathering.GatherIsComplete | sdk/cockpit/auth/scheduler_selection.go:96-114 | the entries gathered from the shards of the requested providers are exactly the candidates of the request |
| Gathering.DueIsListed | sdk/cockpit/auth/scheduler_selection.go:96-114 | for any snapshots every candidate that is due is ready in its shard |
| Gathering.BestOverAll | sdk/cockpit/auth/scheduler_selection.go:93-117 | the best of the per-provider priorities is the greatest priority over all candidates |
| Gathering.PickMissesNoDue | sdk/cockpit/auth/scheduler_selection.go:93-152 | for any snapshots a pick has at least the priority of every due candidate, and filling first it leads the due ones of its own |
| Gathering.RefusalMissesNoDue | sdk/cockpit/auth/scheduler_selection.go:156-188 | for any snapshots a refusal means that no candidate is due |
| Gathering.AllSummed | sdk/cockpit/auth/scheduler_selection.go:156-176 | totals, cooldowns and earliest reset added up over the providers are those of all candidates |
| Gathering.MixedAgreement | sdk/cockpit/auth/conductor_selection.go:145-277 | on one pool the fill-first of the scheduler and of the rescan answer alike if and only if the best candidate of the pool belongs to the first listed provider that has a top candidate; refusals always agree |
| Gathering.SingleProvider | sdk/cockpit/auth/conductor_selection.go:227-277 | with one provider they always agree |
| Gathering.ProvidersMayDisagree | sdk/cockpit/auth/scheduler_selection.go:119-131 | two providers on which they pick different credentials |
| Gathering.NormalizedIsDistinct | sdk/cockpit/auth/scheduler_selection.go:205-220 | normalised keys are distinct and are the non-empty requested ones |
| Gathering.AnswerIsUntried | sdk/cockpit/auth/scheduler_selection.go:52-153 | whatever the scheduler answers, a pick is an untried auth of the requested providers |
| SchedulerRuns.VerdictExactly | sdk/cockpit/auth/selector.go:298-355 | the whole verdict at any instant: switched off, free from the retry time on, and before that blocked for cooldown or otherwise until the recovery time of the quota if it is ahead, else the retry time |
| SchedulerRuns.BlockedAlike | sdk/cockpit/auth/selector.go:298-355 | two names of a model block a credential at the same instants if and only if it is free for them from the same instant on |
| SchedulerRuns.VerdictsAlike | sdk/cockpit/auth/selector.go:298-355 | the whole verdicts, with reason and time to look again, agree at all instants if and only if the snapshot gives both names the same free instant, kind and recovery time |
| SchedulerRuns.SuffixMakesNoDifference | sdk/cockpit/auth/selector.go:305-314 | no candidate keeps a state of its own for the suffixed name: one way for all verdicts to be alike |
| SchedulerRuns.SuffixMayDiffer | sdk/cockpit/auth/selector.go:305-314 | a state kept for a suffixed name that the rescan sees and the shard does not |
| SchedulerRuns.PickNextMixed | sdk/cockpit/auth/conductor_selection.go:227-277 | the answer of the indexes, which passes over nobody who is due, and for a refusal with a model the answer of indexes just rebuilt, which is exact whatever the candidates |
| SchedulerRuns.AnswersAgree | sdk/cockpit/auth/conductor_selection.go:145-277 | for any snapshots the pick of the scheduler is an untried candidate that is free now, of at least the priority of every due one and before those of its own, and its refusal means that none is due; where the verdicts on both names are alike, scheduler and rescan refuse together with the same reset time (without a model, for punctual candidates), and with punctual candidates pick the same if and only if the best candidate belongs to the first listed provider with a top one |
| SchedulerRuns.PickBoth | sdk/cockpit/auth/conductor_selection.go:145-277 | scheduler, with its rebuild and second pick, and rescan side by side on one request |
| SchedulerRuns.Replay | sdk/cockpit/auth/conductor_selection.go:145-277 | over any run of upserts, removals, rebuilds and picks, with time never going back, each pick is answered by the indexes, rebuilt and asked again after a refusal, as AnswersAgree says it is by the rescan of the auths of that moment |
| Websockets.PreferencesAgree | sdk/cockpit/auth/selector.go:169-191 | preferring websockets, scheduler and rescan pick alike if and only if the websockets of the best priority are not used up; otherwise the scheduler picks lower or refuses |
| Websockets.RefusedThoughFree | sdk/cockpit/auth/scheduler_shards.go:181-225 | preferring websockets, the scheduler refuses if and only if every free untried credential stands at a priority whose websockets are used up |
| Websockets.TriedSocketHides | sdk/cockpit/auth/scheduler_shards.go:190-196 | a tried websocket behind which the scheduler refuses an untried free credential that the rescan picks |
| Websockets.ChoicesOffered | sdk/cockpit/auth/scheduler_shards.go:189-197 | at each priority the allowed entries of the view a lookup chooses are the offers |
| Websockets.PickMissesNoOffer | sdk/cockpit/auth/scheduler_shards.go:167-225 | for any snapshots a lookup that prefers websockets passes over no due credential that has one, nor any where no free one has, and picks none without websocket where a due one has it |
| SinglePicks.PickNext | sdk/cockpit/auth/conductor_selection.go:114-143 | the answer of pickSingle, and for a refusal with a model the answer of a shard just built |
| SinglePicks.SingleAgreement | sdk/cockpit/auth/conductor_selection.go:55-143 | for any snapshots the pick for one provider is sound and passes over nobody who is due, or whose offer is; where the verdicts on both names are alike, a refused model leaves out only credentials behind used-up websockets, and with punctual snapshots scheduler and rescan answer alike if and only if those of the best priority are not used up |
| SinglePicks.PickSingleBoth | sdk/cockpit/auth/conductor_selection.go:55-143 | scheduler and rescan side by side on one request to one provider |
| Fairness.RoundOfEntries | sdk/cockpit/auth/scheduler_roundrobin.go:42-60 | as many consecutive picks of a view as it has allowed entries return each of them exactly once |
| Fairness.RoundOfShard | sdk/cockpit/auth/scheduler_shards.go:167-225 | as many consecutive picks of a shard, at times that do not go back, as its best priority has choices pick each of them exactly once, as long as nothing that is held back runs out meanwhile |
| Fairness.RoundOfCandidates | sdk/cockpit/auth/scheduler_selection.go:93-152 | as many consecutive calls of pickMixed on one provider, at times that do not go back, as its best priority has choices when the first of them looks it up pick each of these exactly once, whatever the cursors, as long as nothing held back runs out meanwhile |
| Fairness.RoundOfSingle | sdk/cockpit/auth/scheduler_selection.go:12-49 | the same of pickSingle, with or without a websocket downstream |
| Fairness.RoundOfProviders | sdk/cockpit/auth/scheduler_selection.go:133-152 | as many consecutive mixed picks as there are providers with a top candidate pick from each of them exactly once, as long as these and the punctual candidates stay the same |
| RegistryState.AddOneMore | internal/registry/model_registry_registration.go:10-49 | adding a listing n times and once more is adding it n + 1 times |
| RegistryState.DropOneMore | internal/registry/model_registry_registration.go:51-84 | removing a listing n times and once more is removing it n + 1 times |
| RegistryState.ReconciledForm | internal/registry/model_registry.go:184-334 | the five loops of a reconciliation in closed form, across provider changes and repeated IDs |
| RegistryState.SameProviders | internal/registry/model_registry.go:231-334 | moving, dropping, adding and moving back leaves the provider counts that taking all old listings out and all new ones in leaves |
| RegistryState.ReconciledIsReplaced | internal/registry/model_registry.go:184-334 | on one registration reconciling is unregistering and registering afresh if and only if no stale mark is in the way |
| RegistryState.StaleMarkSurvives | internal/registry/model_registry.go:308-316 | a concrete mark that reconciling keeps and registering afresh does not |
| RegistryState.SameCounters | internal/registry/model_registry.go:184-334 | the two agree on everything that is counted, marks or not |
| RegistryState.AddCounted | internal/registry/model_registry_registration.go:10-49 | adding listings keeps a true counter true |
| RegistryState.DropCounted | internal/registry/model_registry_registration.go:51-84 | removing listings keeps a true counter true; the last one removes the registration |
| RegistryListing.ListingSplit | internal/registry/model_registry.go:106-124 | the listings of all clients are those of one client and of the rest |
| RegistryListing.ModelsAreListed | internal/registry/model_registry.go:106-124 | where the counters are true the registered models are exactly those some client lists |
| RegistryListing.UnregisteredIsTrue | internal/registry/model_registry_registration.go:97-148 | unregistering keeps every counter equal to the recomputation from the client lists |
| RegistryListing.RegisteredIsTrue | internal/registry/model_registry.go:148-361 | registering keeps every counter equal to the recomputation: count, counts per provider without zero entries, and infos for the same providers |
| RegistryListing.RegisteredTables | internal/registry/model_registry.go:148-361 | registering a client enters its listing, infos and provider, an empty listing takes them out |
| RegistryListing.UnregisteredTables | internal/registry/model_registry_registration.go:97-148 | unregistering takes listing, infos and provider out and leaves those of the others |
| RegistryListing.RegisteredShows | internal/registry/model_registry.go:279-334 | a listed model is registered, with the info of the listing shown and kept for the provider; any other model shows what it showed |
| RegistryListing.Reregistration | internal/registry/model_registry.go:184-346 | re-registering an existing client leaves the whole state that unregistering it and registering it afresh leaves, if and only if no stale mark is in the way |
| RegistryListing.ReregistrationOfListers | internal/registry/model_registry.go:184-346 | so always when marks belong to clients that list the model |
| RegistryAvailability.AvailabilityRule | internal/registry/model_registry_queries.go:47-87 | a model is offered if and only if no client is suspended for another reason than quota, or more clients list it than are over quota or so suspended; cooldown suspensions decide nothing |
| RegistryAvailability.AnswerHolds | internal/registry/model_registry_queries.go:43-90 | an answer stays the answer until the first quota recovery after it was built |
| RegistryAvailability.AnswersAgree | internal/registry/model_registry_queries.go:43-90 | two answers to one question have the same entries |
| RegistryAvailability.CleanupIsInvisible | internal/registry/model_registry_state.go:100-119 | cleaning up expired quotas changes no later answer |
| RegistryAvailability.MarksAreNotCounted | internal/registry/model_registry_state.go:13-119 | marking, clearing and cleaning leave the counters true |
| Registry.FirstInfosUnique | internal/registry/model_registry.go:154-168 | a request determines the info kept for each ID |
| Registry.Collect | internal/registry/model_registry.go:154-168 | the usable IDs with repetitions, their multiplicities, and for each the info listed first |
| Registry.ModelRegistry.constructor | internal/registry/model_registry_support.go:16-28 | an empty registry is valid |
| Registry.ModelRegistry.AddModelRegistration | internal/registry/model_registry_registration.go:10-49 | one listing more of one model, nothing else |
| Registry.ModelRegistry.RemoveModelRegistration | internal/registry/model_registry_registration.go:51-84 | one listing fewer of one model, nothing else |
| Registry.ModelRegistry.MoveOutLoop | internal/registry/model_registry.go:231-258 | the first loop does its stage at every ID |
| Registry.ModelRegistry.DropRemovedLoop | internal/registry/model_registry.go:260-266 | the second loop does its stage at every ID |
| Registry.ModelRegistry.DropOverageLoop | internal/registry/model_registry.go:268-277 | the third loop does its stage at every ID |
| Registry.ModelRegistry.AddNewLoop | internal/registry/model_registry.go:279-290 | the fourth loop does its stage at every ID |
| Registry.ModelRegistry.RefreshLoop | internal/registry/model_registry.go:292-334 | the fifth loop does its stage at every ID |
| Registry.ModelRegistry.ReconcileModels | internal/registry/model_registry.go:231-334 | the five loops in a row reconcile every registration |
| Registry.ModelRegistry.UnregisterClientInternal | internal/registry/model_registry_registration.go:97-148 | the whole state is that without the client, and its counters are true |
| Registry.ModelRegistry.UnregisterClient | internal/registry/model_registry_registration.go:89-94 | as above, and nothing cached is wrong |
| Registry.ModelRegistry.RegisterClient | internal/registry/model_registry.go:148-361 | the whole state is that with the new listing, its counters are true, and nothing cached is wrong |
| Registry.ModelRegistry.SetModelQuotaExceeded | internal/registry/model_registry_state.go:13-24 | one quota mark is set, at a registered model only; the invariant holds |
| Registry.ModelRegistry.ClearModelQuotaExceeded | internal/registry/model_registry_state.go:30-39 | one quota mark is gone; the invariant holds |
| Registry.ModelRegistry.SuspendClientModel | internal/registry/model_registry_state.go:46-72 | one suspension is entered unless there is one already; the invariant holds |
| Registry.ModelRegistry.ResumeClientModel | internal/registry/model_registry_state.go:78-97 | one suspension is gone; the invariant holds |
| Registry.ModelRegistry.CleanupExpiredQuotas | internal/registry/model_registry_state.go:100-119 | exactly the recovered quota marks are gone; a cache that is kept is still right |
| Registry.ModelRegistry.BuildAvailableModels | internal/registry/model_registry_queries.go:43-90 | the answer of now, and as its expiry the first recovery still to come, or none if there is none |
| Registry.ModelRegistry.GetAvailableModels | internal/registry/model_registry_queries.go:15-41 | cached or built afresh, the result is the answer at the time of the call, whatever was read or changed before, unless a read has come before with a later clock |
| Registry.ModelRegistry.GetModelProviders | internal/registry/model_registry_queries.go:292-328 | exactly the providers through whose clients the model is listed, by number of listings and then by name |
| RegistryRuns.Perform | internal/registry/model_registry_queries.go:15-90 | one step of a run changes the registry as its value says and answers a query as the value calls for |
| RegistryRuns.Serve | internal/registry/model_registry_queries.go:15-41 | over any run of registrations, marks, cleanups and queries, with time never going back, each query is answered, cached or not, as a registry would that adds up the lists of the clients and the marks of that moment |
| RegistryRuns.InfosAreFirst | internal/registry/model_registry.go:154-168 | the infos a request leaves are those listed first |
| RegistryNotices.CooldownIsQuota | sdk/cockpit/auth/conductor_result.go:151-224 | a failure suspends its model exactly for 401, 402, 403, 404 and 429; for 429, and for nothing else, it is over quota and the suspension a cooldown; only successes resume |
| RegistryNotices.MarksAreTold | sdk/cockpit/auth/conductor_result.go:213-224 | over any run of results about a model its marks are what the results say: the clients refused and not resumed since, for the first reason, and the last quota failure of each |
| RegistryNotices.OfferedExactly | internal/registry/model_registry_queries.go:47-87 | after any registrations and then any results about a model it is offered if and only if no client is out for 401 to 404, or more listings are left than clients that are over quota, for five minutes, or so out |
| RegistryNotices.QuotaNeverHides | internal/registry/model_registry_queries.go:66-87 | results that fail with anything but 401, 402, 403 and 404 leave no client out for good, so the model stays offered |
| RegistryNotices.AllRefusedHides | internal/registry/model_registry_queries.go:66-87 | a model that each client lists once and each listing client was refused for 401 to 404 since its last success is not offered |
| RegistryNotices.OneSuccessShows | internal/registry/model_registry_queries.go:66-87 | one listing client that is not out shows the model again where no quota failure counts |
| RegistryNotices.FirstReasonStays | internal/registry/model_registry_state.go:46-72 | a client suspended for quota first stays so when it is refused later, the other way round it is out |
| UpdateQueue.DrainedAt | internal/watcher/dispatcher.go:202-221 | draining the queue and applying it does at each ID what the one update filed under it does |
| UpdateQueue.ConvergingMeans | internal/watcher/dispatcher.go:145-221 | the invariant says: delivering what is under way and then what is pending leaves the consumer following the watcher, with the same credentials and, but for model states, the same snapshots |
| UpdateQueue.StatesHeld | sdk/cockpit/service_runtime.go:153-159 | the model states that a consumer holds are those the applied updates have left |
| UpdateQueue.EqualExactly | sdk/cockpit/service_runtime.go:145-176 | a consumer that follows the watcher has exactly its snapshot if and only if that brings model states or the applied updates have left none |
| UpdateQueue.StatesLinger | sdk/cockpit/service_runtime.go:153-159 | a credential that loses its model states keeps them in the consumer, and a refresh that finds the snapshot unchanged sends nothing |
| UpdateQueue.EqualMeans | internal/watcher/dispatcher.go:246-262 | two snapshots count as the same exactly if they agree in everything but bookkeeping and quota recovery time |
| UpdateQueue.BookkeepingStays | sdk/cockpit/service_runtime.go:153-156 | whatever updates are applied, the times of creation, last refresh and next refresh of a held credential stay until one removes it |
| UpdateQueue.TakenOverWhole | sdk/cockpit/service_runtime.go:145-164 | a credential that is new to the consumer is taken over whole |
| UpdateQueue.Take | internal/watcher/dispatcher.go:202-221 | taking a batch keeps the invariant |
| UpdateQueue.Deliver | sdk/cockpit/service_runtime.go:76-104 | applying the next update keeps the invariant |
| UpdateQueue.ToldConverges | internal/watcher/dispatcher.go:42-78 | a safe runtime update keeps the invariant |
| UpdateQueue.RefreshConverges | internal/watcher/dispatcher.go:105-169 | a refresh keeps the invariant, forced or not, and never drops a credential announced at run time |
| UpdateQueue.SafeExactly | internal/watcher/dispatcher.go:145-176 | a runtime update is safe in every run of well-formed ones if and only if it names its credential and, when adding, brings it (or is about nothing) |
| UpdateQueue.NamelessDiverges | internal/watcher/dispatcher.go:171-176 | an update without ID leaves the consumer with an older snapshot for good |
| UpdateQueue.MisnamedDiverges | internal/watcher/dispatcher.go:158-164 | an addition that does not bring the credential it names displaces one that does |
| UpdateQueue.Coalescing | internal/watcher/dispatcher.go:145-169 | delivering only the last update of an ID ends where delivering all does, model states apart; and those agree if and only if the last update deletes or brings its own, or the skipped ones would have left what was held |
| UpdateQueue.CoalescingKeepsStates | sdk/cockpit/service_runtime.go:153-159 | a deletion and re-addition that coalesce keep model states that both would have dropped |
| UpdateQueue.InTurn | sdk/cockpit/service_runtime.go:145-184 | applying updates in turn, the last one of the credential decides upon what those before it left |
| Watcher.Watcher.DispatchAuthUpdates | internal/watcher/dispatcher.go:145-169 | the queue with the updates enqueued in order, the later of a key in place of the earlier |
| Watcher.Watcher.DispatchRuntimeAuthUpdate | internal/watcher/dispatcher.go:42-78 | both maps changed and the update enqueued |
| Watcher.Watcher.RefreshAuthState | internal/watcher/dispatcher.go:80-103 | the snapshot with the runtime credentials on top, and its differences enqueued |
| Watcher.Watcher.PrepareAuthUpdates | internal/watcher/dispatcher.go:105-143 | exactly the differences between what was known and the new state, one per ID |
| Watcher.Watcher.NextPendingBatch | internal/watcher/dispatcher.go:202-221 | the pending updates in order; nothing is pending afterwards |
| Watcher.Service.HandleAuthUpdate | sdk/cockpit/service_runtime.go:76-104 | the update applied to the held auths |
| Watcher.Service.ApplyCoreAuthAddOrUpdate | sdk/cockpit/service_runtime.go:145-176 | the snapshot merged into the held one: bookkeeping times stay, and model states where none are brought |
| Watcher.Session | internal/watcher/dispatcher.go:145-221 | over any interleaving of refreshes, safe runtime updates, batches taken and updates applied the consumer keeps converging; whenever nothing is pending or under way it has the credentials of the watcher, each equal to the snapshot of the watcher if and only if EqualExactly says so, and all of them if no event brings model states |
| Backoff.CooldownExact | sdk/cockpit/auth/conductor_result_helpers.go:247-262 | up to level 33 the 64-bit product does not overflow: the cooldown is min(2^level s, 30 min) |
| Backoff.CooldownExactly | sdk/cockpit/auth/conductor_result_helpers.go:254-260 | the 64-bit cooldown is min(2^level s, 30 min) if and only if the level is at most 33 or the wrapped product reaches 30 minutes |
| Backoff.CooldownOverflows | sdk/cockpit/auth/conductor_result_helpers.go:254-257 | at level 34, which no run of failures reaches, it wraps around and falls back to one second |
| Backoff.LevelsStay | sdk/cockpit/auth/conductor_result_helpers.go:247-262 | levels up to 11 stay in 0..11; with cooling disabled the cooldown is 0 |
| Backoff.CooldownsInARow | sdk/cockpit/auth/conductor_result_helpers.go:247-262 | k failures in a row give min(2^(level + k) s, 30 min), never decreasing |
| Backoff.CooldownsInNanoseconds | sdk/cockpit/auth/conductor_result_helpers.go:247-262 | the cooldowns in nanoseconds: one second at level 0, doubled each time, half an hour from level 11 on |
| Failures.UpdateAggregatedAvailability | sdk/cockpit/auth/conductor_result_helpers.go:38-97 | the aggregate over the tracked models: unavailable if all are down, until the earliest retry; the earliest recovery and the greatest level of the exceeded quotas |
| Failures.AggregateUnique | sdk/cockpit/auth/conductor_result_helpers.go:47-79 | the order in which the models are visited does not matter |
| Failures.AggregateAgrees | sdk/cockpit/auth/conductor_result_helpers.go:80-85 | from then on the credential as a whole is blocked exactly while every tracked model is, if and only if not all of them are switched off |
| Failures.DownIsBlocked | sdk/cockpit/auth/selector.go:305-340 | the aggregated condition is the block rule of a tracked model |
| Failures.AggregateNeedNotBePunctual | sdk/cockpit/auth/conductor_result_helpers.go:70-95 | punctual models whose aggregate is not: its quota recovers after its retry time |
| Failures.AggregatePunctualExactly | sdk/cockpit/auth/conductor_result_helpers.go:47-95 | the aggregate is punctual if and only if not all tracked models are down, none of them waits, no quota recovers, or some recovering quota does so no later than every retry time waited for |
| Results.FailureBlocks | sdk/cockpit/auth/conductor_result.go:140-199 | a failed model is blocked for exactly the rest its status code calls for |
| Results.BlockedFor | sdk/cockpit/auth/conductor_result.go:151-199 | the rests in nanoseconds: half an hour for 401, 402 and 403, twelve hours for 404, what upstream asks for or nothing with cooling disabled for 429, a minute or nothing for passing faults, nothing else |
| Results.BlockedBecause | sdk/cockpit/auth/conductor_result.go:169-185 | a failed model is blocked for cooldown exactly after a quota failure, this one or an earlier one since its last success |
| Results.ErrorShown | sdk/cockpit/auth/conductor_result.go:140-149 | a failure shows with its model and with the credential |
| Results.ErrorCleared | sdk/cockpit/auth/conductor_result.go:123-135 | a success clears the error of its model, and the status and error of the credential exactly when no tracked model has an error on record or rests after one |
| Results.CoolingRule | sdk/cockpit/auth/conductor.go:50-57 | cooling is disabled by the setting of the credential, and by the global one where it has none |
| Results.SuccessFrees | sdk/cockpit/auth/conductor_result.go:123-135 | a success frees its model at once and for good |
| Results.OthersUntouched | sdk/cockpit/auth/conductor_result.go:119-206 | a result about one model leaves the whole verdict on another that has a state of its own as it was |
| Results.WholeFollowsModels | sdk/cockpit/auth/conductor_result.go:119-206 | after a result about a model the credential as a whole is blocked exactly while all tracked models are |
| Results.PunctualAfterFailure | sdk/cockpit/auth/conductor_result.go:169-195 | after a failure the snapshot is punctual if and only if it was a quota failure, has no rest, or no quota cooldown outlasts the new rest |
| Results.WholeFailureBlocks | sdk/cockpit/auth/conductor_result_helpers.go:193-245 | a failure about the credential as a whole blocks it for exactly the rest its status code calls for; an unlisted code leaves the retry time that was there |
| Results.WholeSuccessFrees | sdk/cockpit/auth/conductor_result_helpers.go:119-133 | a success about the credential as a whole frees it at once and for good |
| Results.WholeLeavesModels | sdk/cockpit/auth/conductor_result.go:136-202 | a result about the credential as a whole changes no verdict on a model of an enabled credential |
| Results.WholePunctualAfterFailure | sdk/cockpit/auth/conductor_result_helpers.go:206-244 | after such a failure the credential is punctual if and only if it was a quota failure, has no rest, or no quota cooldown outlasts the retry time |
| Results.MarkedKeepsLevels | sdk/cockpit/auth/conductor_result.go:107-226 | results keep all backoff levels in 0..11 |
| Results.OthersKeepLevel | sdk/cockpit/auth/conductor_result.go:107-226 | a result that is not about a model leaves its backoff level alone |
| Results.QuotaFailuresInARow | sdk/cockpit/auth/conductor_result.go:169-185 | in a run of results whose only ones about a model are quota failures, whatever comes between, the k-th of these rests it for min(2^(level + k) s, 30 min) |
| Results.Manager.MarkResult | sdk/cockpit/auth/conductor_result.go:107-226 | one credential is marked as the result says, all others stay; levels stay bounded; the registry is told exactly what the result calls for |
| Results.Manager.ApplyAuthFailureState | sdk/cockpit/auth/conductor_result_helpers.go:193-245 | the credential after a failure about it as a whole, of which WholeFailureBlocks and WholePunctualAfterFailure say what it means |
| Results.Manager.HasModelError | sdk/cockpit/auth/conductor_result_helpers.go:99-117 | whether some tracked model is in error |
| Retry.AnswersAreUntried | sdk/cockpit/auth/conductor_execute.go:296-312 | a pick of the scheduler or of the rescan from the credentials of the manager is an untried credential of the requested providers |
| Retry.ExecuteMixedOnce | sdk/cockpit/auth/conductor_execute.go:280-350 | the trace of a round: each credential is the pick for exactly those tried before it, is called and noted as the call ended, and all answers but the last are faults that are not the fault of the request; it ends with the answer that is none such, with the configured number tried, or with a refused pick, and reports that answer, else the last fault, and the refusal only where nothing was called; no credential is called twice |
| Retry.TraceUnique | sdk/cockpit/auth/conductor_execute.go:280-350 | picks and answers determine whom a round calls, how it ends, and when |
| Retry.Execute | sdk/cockpit/auth/conductor_execute.go:193-220 | the rounds of a request and its waits, each round traced from what the one before left, each wait for the reason and time that ShouldRetryAfterError gives; the outcome is that of the last round, given up for one of the listed reasons, or a cancelled wait; at most 1 + the largest effective retry rounds, and calls and waiting add up to those of the rounds, within the products; without providers nothing is asked |
| Retry.ClosestCooldownWait | sdk/cockpit/auth/conductor_result.go:19-74 | the shortest wait for a blocked credential that may still be retried, or none if there is none |
| Retry.ShouldRetryAfterError | sdk/cockpit/auth/conductor_result.go:76-91 | a retry waits exactly the shortest wait of an awaited credential, positive and within the limit; no retry only for the listed reasons |
| Retry.WaitFrees | sdk/cockpit/auth/conductor_result.go:60-71 | the awaited credential is free when the wait is over if and only if its quota does not recover before its retry time |
| Retry.Mark | sdk/cockpit/auth/conductor_execute.go:320-339 | the state of the called model says how the call ended, what was noted of other credentials stays, and so do providers and retry settings |
| ToolNames.CandidateFits | internal/translator/codex/openai/chat-completions/codex_openai_request_helpers.go:38-53 | a candidate has at most 64 bytes, is the name itself exactly if that fits, and keeps the prefix |
| ToolNames.KeepsLastSegment | internal/translator/codex/openai/chat-completions/codex_openai_request_helpers.go:11-28 | a name of more than 64 bytes that starts with mcp__ is cut to that and what follows its last double underscore, at most 64 bytes of it |
| ToolNames.CutOff | internal/translator/codex/openai/chat-completions/codex_openai_request_helpers.go:11-28 | any other long name is its first 64 bytes |
| ToolNames.MakeUnique | internal/translator/codex/openai/chat-completions/codex_openai_request_helpers.go:55-75 | the candidate if free, else its first free variant; the unbounded search ends within |used| + 1 tries |
| ToolNames.VariantsDiffer | internal/translator/codex/openai/chat-completions/codex_openai_request_helpers.go:60-70 | variants with different numbers are different, truncated or not |
| ToolNames.BuildShortNameMap | internal/translator/codex/openai/chat-completions/codex_openai_request_helpers.go:33-84 | every name has its first free variant, a repeated one the last it got; distinct names have distinct short names |
| ToolNames.Injective | internal/translator/codex/openai/chat-completions/codex_openai_request_helpers.go:77-82 | distinct names have distinct short names |
| ToolNames.ShortsFit | internal/translator/codex/openai/chat-completions/codex_openai_request_helpers.go:33-84 | short names have at most 64 bytes |
| ToolNames.IdentityExactly | internal/translator/codex/openai/chat-completions/codex_openai_request_helpers.go:33-84 | the map is the identity if and only if every name fits and none is listed twice |
| ToolNames.BuildReverseMap | internal/translator/codex/openai/chat-completions/codex_openai_response.go:403-408 | the reverse map has exactly the short names and leads back |
| ToolNames.RoundTrip | internal/translator/codex/openai/chat-completions/codex_openai_response.go:385-411 | every name sent upstream comes back as it was |
| FixJson.FixJSON | internal/util/translator.go:108-222 | the loop computes the fixed text of the scanner |
| FixJson.CopyHex | internal/util/translator.go:164-178 | copying hex digits after a unicode escape is what the scanner does one by one |
| FixJson.IdentityExactly | internal/util/translator.go:95-107 | nothing changes if and only if no single quote stands outside a double-quoted string |
| FixJson.FixedIsClean | internal/util/translator.go:108-222 | the result has no single-quoted string |
| FixJson.Idempotent | internal/util/translator.go:108-222 | fixing twice is fixing once |
| FixJson.MeaningKept | internal/util/translator.go:95-107 | bare text, string boundaries and string contents, as a decoder that knows only the double quote as an escaped quote reads them in the result, are those the loose text means |
| FixJson.NoNewEscape | internal/util/translator.go:155-163 | the result has an escaped single quote, which no decoder accepts, if and only if a double-quoted string of the input had one |
| CodexStream.Converter.Convert | internal/translator/codex/openai/chat-completions/codex_openai_response.go:45-223 | the delta of one event, the next state, and the envelope of the chunk with the usage of its event |
| CodexStream.ConvertAll | internal/translator/codex/openai/chat-completions/codex_openai_response.go:45-223 | the deltas of a whole stream in order, each in an envelope with the ID and the time of the response announced last, the usage of its line, and the model name of the line, else of that response, else the requested one |
| CodexStream.RemembersResponse | internal/translator/codex/openai/chat-completions/codex_openai_response.go:69-73 | after any events the converter holds ID, time and model name of the response announced last |
| CodexStream.ConvertNonStream | internal/translator/codex/openai/chat-completions/codex_openai_response.go:238-381 | nothing for a foreign payload; else the tool calls of a whole response, the answer and the reasoning of the last item that brings one, stop for a completed one, and its usage |
| CodexStream.StepKeepsStep | internal/translator/codex/openai/chat-completions/codex_openai_response.go:131-216 | while no call is brought up during another, each event keeps the gathered calls those that the stream has brought so far |
| CodexStream.StreamIsNonStream | internal/translator/codex/openai/chat-completions/codex_openai_response.go:110-222 | the calls a client gathers from a complete stream are those of the converter of the whole response if and only if no call is brought up while another is under way and every announced call with arguments has had an argument event |
| CodexStream.IndicesCount | internal/translator/codex/openai/chat-completions/codex_openai_response.go:131-198 | on any stream call starts carry 0, 1, 2 and so on |
| CodexStream.FinishReasons | internal/translator/codex/openai/chat-completions/codex_openai_response.go:124-130 | however calls overlap, a complete stream finishes with tool_calls if and only if there are tool calls, and so agrees with the whole response if and only if there are none |
| CodexStream.StaysOwing | internal/translator/codex/openai/chat-completions/codex_openai_response.go:131-198 | after an overlap some call is announced twice, or more calls are open than the converter can know of, so that one will be |
| CodexStream.InterleavedGoAstray | internal/translator/codex/openai/chat-completions/codex_openai_response.go:159-168 | two calls open at once whose arguments end up at the wrong one |
| CodexStream.LateArgumentsAreLost | internal/translator/codex/openai/chat-completions/codex_openai_response.go:188-195 | an announced call whose arguments come only when it is done is shown without them |
| CodexStream.NamesComeBack | internal/translator/codex/openai/chat-completions/codex_openai_response.go:383-411 | calls of tools sent under short names come back under their own |
| CodexText.GatheredText | internal/translator/codex/openai/chat-completions/codex_openai_response.go:110-123 | the text gathered from a stream is that of its text deltas, and the reasoning that of its deltas with a blank line for each part done |
| CodexText.NothingElse | internal/translator/codex/openai/chat-completions/codex_openai_response.go:299-348 | the texts of a response in a row are the first text of the last item that has one if and only if all others are empty |
| CodexText.AnswersAgree | internal/translator/codex/openai/chat-completions/codex_openai_response.go:119-123 | where the deltas make up the text parts of the response, a client gathers the answer of the converter of the whole response if and only if all text but the part this keeps is empty |
| CodexText.ReasoningAgrees | internal/translator/codex/openai/chat-completions/codex_openai_response.go:111-118 | where the events make up the summary parts, a client gathers the reasoning of the converter of the whole response if and only if there is none |
| Transcript.NormalizeExtends | sdk/api/handlers/openai/openai_responses_ws_normalize.go:59-171 | an accepted input is the first, alone if incremental, or reads back as what was sent, what came back and what is new, in order |
| Transcript.AcceptedCarries | sdk/api/handlers/openai/openai_responses_ws_normalize.go:100-115 | an accepted request carries the conversation with the new turn |
| Transcript.AcceptedExactly | sdk/api/handlers/openai/openai_responses_ws_normalize.go:19-144 | a message is accepted if and only if none of the listed reasons is against it, in that order: an unknown kind, a first message without model or that appends, a later one without array input, and not incremental after an input that is no array; else it is refused for that reason |
| Transcript.AcceptedKeeps | sdk/api/handlers/openai/openai_responses_ws_normalize.go:39-144 | an accepted request streams, refers to no previous response unless incremental, and has its own model and instructions, or those of the last request where it has none |
| Transcript.Session.Handle | sdk/api/handlers/openai/openai_responses_websocket.go:77-195 | a rejected message changes nothing; an accepted one is sent with the conversation before it, keeps its own fields, takes model and instructions over where it has none, and becomes the last request |
| Transcript.RunSession | sdk/api/handlers/openai/openai_responses_websocket.go:77-195 | over a whole session exactly which messages are rejected and with which error, which are answered locally, and that the k-th accepted one since the last incremental carries in1 ++ out1 ++ ... ++ in(k), whatever was rejected between |
| Transcript.UnreadableBlocks | sdk/api/handlers/openai/openai_responses_ws_normalize.go:100-107 | after a first input that is no array only an incremental turn is accepted |

## Left out

- HTTP, SSE, websocket frames, OAuth, persistence, logging, hooks and metrics: input and output.
- Executors and upstream services: their answers are arbitrary values.
- Goroutine interleavings inside locked calls, and the second cache check after taking the write lock.
- The round-robin selector of the rescan and custom selectors: round-robin picks of the scheduler are proved
  sound against the reference, not equal to another rotation.
- Support sets that change in the registry without the credential being entered again.
- `GetAvailableModelsByProvider`, `GetModelCount` and `GetModelInfo`: recomputations without state of their own.
- The rendering of a model for each API: an entry names the API and the model.
- Timestamps of last change, status messages and indexes of credentials.
- Retry-After values below zero.
- Config synthesis: a snapshot of credentials is any list.
- Results recorded by the consumer between updates: they change model states, which a later update keeps.
- Watcher start and stop, and a consumer that is attached late.
- JSON syntax, and the ID, time and model name that a whole Codex response carries over unchanged.
- Codex streams that do not keep to the protocol: the comparison with the whole response is about streams that
  mention a call under one name, finish it once, send its argument events in between, and agree with what they
  finish it with; calls may overlap, be announced or not, and have argument events or not. What the converter does
  with any other stream is in `Converter.Convert`, `ConvertAll` and `IndicesCount`.
- The compaction of array elements when transcripts are merged: elements are compared as JSON values.
- Counting and streaming execution: the same loops as plain execution around other calls.
- Fairness.RoundOfCandidates: is about picks in a row on one provider. A snapshot entered between them keeps the
  cursors where it keeps its place (`Shards.ModelScheduler.UpsertEntry`), which is said of one shard, not of the
  whole scheduler; over several providers `Fairness.RoundOfProviders` says who is served.
- ToolNames.ShortsFit: for lists of fewer than 10^63 - 1 names, beyond which a number alone fills 64 bytes.
- Retry.Execute: bounds the rounds by any bound on the retry settings of the pool, of which the largest is one.
