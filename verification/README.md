# Monitube collection model

Monitube collects YouTube channels, keyword searches and single videos into shared *targets*. A
request from a user is answered by a durable *job*; a worker claims the job under a lease, walks
pages of the YouTube API, checkpoints its cursor, and can be interrupted anywhere. Derived counters
and stable page cursors are what the rest of the product reads. This project models that core and
proves what it is relied on for.

- **Coordinator** (`CollectionPolicy`, `Jobs`, `Store`, `Sources`, `Lifecycle`, `Submission`,
  `Promotion`, `Coverage`, `Replays`, `Coordinator`, `Tables`, `Repository`). `Store` holds the eleven
  dictionaries of the repository and the well-formedness predicate `Inv`. Each operation is a
  function on these tables; `Coordinator` turns the operations into events and proves what every run
  keeps. `Repository.InMemoryRepository` is the class with the dictionaries as fields; its methods
  update them in place with the loops of the original and are proved equal to the operations on
  tables.
- **Comment walk** (`Checkpoints`, `CommentWalk`). The nested walk over thread pages and reply pages,
  with a fault possible at every call, and the checkpoint it resumes from.
- **Rollups and backfill** (`Rollups`, `Backfill`). The comment page transaction, with its choice
  between a delta and a recount, against the simple count over comments; and the resumable backfill
  that runs beside it.
- **Paging** (`Ordering`, `Paging`, `Cursor`, `Listings`). Keyset pages over a library that changes
  between requests, and the cursor text (unpadded base64url, section 5 of RFC 4648).
- **Search** (`JaroWinkler`, `FuzzySearch`). Greedy matching on boolean arrays and the ranking on top.
- **Protocols** (`FanOut`, `Leases`, `LockOrder`, `Discovery`). Child jobs, leases over time, row
  locks of concurrent transitions, and the early stop of channel discovery.

`Counterexamples` holds the runs of the coordinator that lead to its unguarded states.

Ids are strings, times are integers, floats are reals. New ids, the clock, the choice between equally
ranked sources, and what the outside world does next are inputs. JSON and the text of times are a
codec with a `Lawful` predicate; text normalisation is a parameter of search.

Terms used below:

- *work* (`CollectionPolicy.Work`): the uploads of a channel, the comment pages of a video and the pages of a
  search, each counted from the first. What a request asks for (`Asks`), what a job does (`DoneBy`) and what
  a coverage record stands for (`Includes`) are sets of these.
- *the contract*: channel limits are present and at least 1, and so are the other limits where they
  are given (`Coverage.Limited`); it is what the API's request validation lets through.
- *the gap* (`FanOut.InGap`): a discovery job has created its children, has not yet recorded that it
  did, and has lost its target to a merge.
- *quiet* changes, for a listing and a snapshot (`Listings.Quiet`): links, new videos and new
  subscriptions made after the snapshot, and writes of stored videos that leave the listing's filter
  and, where the snapshot shows the video, its sort key as they are. A source listing sorts by effective
  time and id, an owner's listing by effective time, fetch time and id.

Some promises of the code or its comments fail on some input. The model then keeps the code, exhibits
the failure, and says when the promise holds:

- The delta of a comment page miscounts top-level comments when a parent id is the empty string
  (`Rollups.DeltaIsRecount`, `Rollups.EmptyParentMiscounts`).
- Merging a config that has no channel limit can lose part of the request, because the limit counts
  as 50 when asked for and as 1 when merged (`CollectionPolicy.MergeCoversIncoming`,
  `CollectionPolicy.AbsentLimitIsLost`). Merging is an upper bound, and only sometimes the least one
  (`CollectionPolicy.MergeIsLeastIffTight`, `CollectionPolicy.MergeOverasks`).
- The in-memory `transition_job` runs its terminal hooks again on a move between terminal states,
  which makes a second unfinished job exactly when a request waits
  (`Lifecycle.RerunHooksSafeIffNobodyWaits`, `Counterexamples.RerunHooksMakeSecondJob`). It also queues
  a finished job again without looking for another one (`Lifecycle.RevivalSafeIffTargetIdle`,
  `Counterexamples.RevivalMakesSecondJob`).
- The in-memory `delete_source` removes a target without looking at its subscriptions
  (`Sources.RemoveTargetKeepsIffUnclaimed`, `Counterexamples.DeletionStrandsSubscriber`).
- Releasing a job after one's own lease ran out takes the lease from its new holder
  (`Leases.ReleaseIsSafeIffNobodyElseHolds`, `Leases.StaleReleaseBreaksExclusion`,
  `Leases.StaleReleaseIsReachable`).
- A fan-out job whose children have not all succeeded can complete when it is picked up in the gap, and
  only then (`FanOut.PickUpCompletesIffInGap`, `FanOut.GapIsReachable`). Without merges there is no gap
  (`FanOut.UnmergedFanOutIsSafe`).
- Ascending row locks keep transitions from blocking each other. A promotion takes part in that order
  only if it merges into the target with the higher id
  (`LockOrder.PromotionIsSafeIffUpwards`, `LockOrder.DownwardsGetsStuck`).
- The early stop of discovery can hide an upload; exactly when is `Discovery.NothingIsMissedIff`, with
  `Discovery.StaleCountHidesUpload` as the smallest case.
- The comment walk is skipped when as many comments are stored as the video advertises, so a count that
  lags behind leaves comments out (`CommentWalk.CommentCollector.CollectAcrossRuns`,
  `CommentWalk.LaggingCountSkipsComments`).
- A video linked at the very instant of a snapshot shows up in it
  (`Listings.NewLinkKeepsListingIffLater`, `Listings.SameInstantLinkShowsUp`).
- A video that is collected again moves in an owner's listing while it is being paged, because the key
  includes the fetch time (`Listings.RecollectionResortsOwnerListings`).

No request is ever answered "joined": the coverage of a running job is never marked complete, and
`coverage_satisfies` asks for that (`CollectionPolicy.NeverJoins`).

## Model

| member | source | states |
|---|---|---|
| Coordinator.EveryRunKeepsTheStoreWellFormed | apps/api/monitube_api/infrastructure/memory_repository.py:62-101 | after any sequence of submit, create, claim, renew, transition, fan-out, dispatch, pin, promote, subscribe, edit, delete and link, no table names a missing record, indexes match their tables one to one, every target has a worker source, at most one unfinished job and no stranded request |
| Coordinator.StepKeeps | apps/api/monitube_api/infrastructure/memory_jobs.py:35-657 | each single operation keeps all of that |
| Coordinator.AtMostOneUnfinishedJob | apps/api/monitube_api/infrastructure/memory_jobs.py:45-78 | in every reachable store two unfinished jobs of one target are the same job |
| Coordinator.NobodyIsStranded | apps/api/monitube_api/infrastructure/memory_jobs.py:301-304 | in every reachable store a request queued without a job sits on a target that has an unfinished job |
| Coordinator.ReplaysAreAlwaysHarmless | apps/api/monitube_api/infrastructure/memory_jobs.py:143-225 | in every reachable store a replay of an idempotency key changes nothing, is answered by the one original request, and never meets the missing-subscription error |
| Coordinator.EveryRunKeepsCovering | apps/api/monitube_api/infrastructure/memory_jobs.py:246-307 | in every run within the contract, each unfinished job of a single-source target covers every request attached to it, and the source asks for what every waiting request asked |
| Coordinator.StepCovers | apps/api/monitube_api/infrastructure/memory_jobs.py:246-307 | each operation within the contract keeps that, widening requests and merges included |
| Coordinator.CompletionCoversItsRequests | apps/api/monitube_api/infrastructure/memory_jobs.py:601-607 | in every run within the contract, the record made when a job of a single-source target completes is complete, includes all the work that every request attached to it asks for, and nothing that the job did not do |
| Repository.InMemoryRepository.constructor | apps/api/monitube_api/infrastructure/memory_repository.py:75-101 | the new repository is empty and well formed |
| Repository.InMemoryRepository.ClaimNextJob | apps/api/monitube_api/infrastructure/memory_jobs.py:626-649 | takes an oldest of the jobs that are unfinished, past their time to resume and past their deadline, or proves that there is none; nothing else changes |
| Repository.InMemoryRepository.RenewJobLease | apps/api/monitube_api/infrastructure/memory_jobs.py:651-657 | extends the lease exactly when the worker owns it and the job is running |
| Repository.InMemoryRepository.EnqueueVideoJobs | apps/api/monitube_api/infrastructure/memory_jobs.py:80-105 | the loop over videos is the specified fan-out, and reports the number of new jobs |
| Repository.InMemoryRepository.ChildJobSummary | apps/api/monitube_api/infrastructure/memory_jobs.py:107-117 | the three counts are those of the children, and decide success |
| Repository.InMemoryRepository.CreateJob | apps/api/monitube_api/infrastructure/memory_jobs.py:35-78 | finds the worker source behind a public id and returns the unfinished job of its target or a new one for it, with the specified errors |
| Repository.InMemoryRepository.TransitionJob | apps/api/monitube_api/infrastructure/memory_jobs.py:566-624 | the in-place update is the specified transition; a refused move changes nothing |
| Repository.InMemoryRepository.SubmitCollectionRequest | apps/api/monitube_api/infrastructure/memory_jobs.py:174-310 | a replay changes nothing and returns the earlier request; otherwise the tables end up as the specified submission |
| Repository.InMemoryRepository.PromoteChannelTarget | apps/api/monitube_api/infrastructure/memory_jobs.py:312-408 | renames the target or merges it into the one that has the channel id, table by table as specified |
| Repository.InMemoryRepository.EnsureSubscriptionTo | apps/api/monitube_api/infrastructure/memory_repository.py:296-330 | afterwards the user has an enabled subscription to a known target; an unknown target changes nothing |
| Repository.InMemoryRepository.CreateSource | apps/api/monitube_api/infrastructure/memory_repository.py:332-342 | adds a legacy source and keeps the repository well formed |
| Repository.InMemoryRepository.SetTargetPin | apps/api/monitube_api/infrastructure/memory_results.py:33-45 | schedules a known target, at once when switched on, and changes nothing else |
| Repository.InMemoryRepository.LinkSourceVideo | apps/api/monitube_api/infrastructure/memory_collection.py:44-54 | adds the video to the target's membership and keeps its first first-seen time |
| Repository.InMemoryRepository.UpdateSource | apps/api/monitube_api/infrastructure/memory_repository.py:404-432 | the specified edit of a subscription or a source, or not found and no change |
| Repository.InMemoryRepository.DeleteSource | apps/api/monitube_api/infrastructure/memory_repository.py:434-492 | the specified removal of a subscription, a legacy source or an unclaimed target |
| Repository.InMemoryRepository.DispatchDuePins | apps/api/monitube_api/infrastructure/memory_results.py:52-73 | handles due pins only, each once, the longest overdue first, passes one over only once the limit is reached, and starts as many jobs as it reports |
| Submission.SubmissionIsServed | apps/api/monitube_api/infrastructure/memory_jobs.py:264-310 | a request that is no replay is completed at once only when all the work it asks for is on record, and always when the limits are reached too; otherwise it waits for a queued job of its target or, when the target's job has started, for that job to end |
| Submission.SubmissionTouchesOnly | apps/api/monitube_api/infrastructure/memory_jobs.py:174-310 | apart from its target, worker source and request, a submission changes no target, source or request, adds at most one job, and rescopes only a queued job of the target |
| Submission.SubmissionWidens | apps/api/monitube_api/infrastructure/memory_jobs.py:238-253 | afterwards the target asks for all the work the request asks for, and its worker source for the same; the record of what was collected stays, and is empty for a new target |
| Submission.SubmitKeeps | apps/api/monitube_api/infrastructure/memory_jobs.py:174-310 | accepting a request keeps the tables consistent, whichever answer it gets |
| Submission.SubmitKeepsSourced | apps/api/monitube_api/infrastructure/memory_jobs.py:230-245 | accepting a request leaves every target with a worker source |
| Submission.FoundTargetFits | apps/api/monitube_api/infrastructure/memory_jobs.py:187-208 | a target found by alias or key has the request's type; when none is found the key is free |
| Submission.ReplayIsHarmless | apps/api/monitube_api/infrastructure/memory_jobs.py:143-225 | a replay leaves the store unchanged and is answered through the caller's own subscription |
| Submission.SubmitTwice | apps/api/monitube_api/infrastructure/memory_jobs.py:187-225 | the same keyed request sent twice makes one request: the second time the same target is found, and nothing changes |
| Submission.UnkeyedNeverReplays | apps/api/monitube_api/infrastructure/memory_jobs.py:210-225 | a request with no key or an empty one replays nothing |
| Replays.SubmitTwiceAcrossPromotion | apps/api/monitube_api/infrastructure/memory_jobs.py:210-408 | a keyed request sent again after its target was renamed or merged is still a replay, when one of its names leads to the survivor |
| Replays.NamesSurvivePromotion | apps/api/monitube_api/infrastructure/memory_jobs.py:377-407 | which a name does whenever the first submission had one and was no replay itself |
| Replays.PromotionKeepsKeys | apps/api/monitube_api/infrastructure/memory_jobs.py:350-371 | after a promotion each user and key with a request on either target has exactly one request on the survivor |
| Replays.ResolvedNamesFindSurvivor | apps/api/monitube_api/infrastructure/memory_jobs.py:400-407 | afterwards the channel id, the handle and the canonical key all lead to the survivor |
| Lifecycle.TransitionKeeps | apps/api/monitube_api/infrastructure/memory_jobs.py:566-624 | a transition between any two states keeps the tables consistent |
| Lifecycle.EndingHandsOver | apps/api/monitube_api/infrastructure/memory_jobs.py:608-623 | the move that ends a job gives every waiting request of the target to exactly one successor, and starts none when nobody waits |
| Lifecycle.EndingSettles | apps/api/monitube_api/infrastructure/memory_jobs.py:595-598 | that move ends the attached requests in the job's final state and leaves every other request and job alone |
| Lifecycle.EndingRecords | apps/api/monitube_api/infrastructure/memory_jobs.py:599-607 | the end of a job changes the coverage of no target but its own, and that only if the job completed; names, configs and all other tables stay |
| Lifecycle.TransitionAnswers | apps/api/monitube_api/infrastructure/memory_jobs.py:566-594 | which moves are refused and with which error, and that a move that ends no job changes that job only |
| Lifecycle.RerunHooksSafeIffNobodyWaits | apps/api/monitube_api/infrastructure/memory_jobs.py:595-623 | running the hooks again between terminal states keeps one unfinished job per target if and only if no request waits |
| Lifecycle.RevivalSafeIffTargetIdle | apps/api/monitube_api/infrastructure/memory_jobs.py:584-594 | queueing a finished job again keeps one unfinished job per target if and only if the target has none |
| Counterexamples.RerunHooksMakeSecondJob | apps/api/monitube_api/infrastructure/memory_jobs.py:595-623 | a run from the empty store to a state in which the unguarded hooks make a second unfinished job |
| Counterexamples.RevivalMakesSecondJob | apps/api/monitube_api/infrastructure/memory_jobs.py:584-594 | a run from the empty store to a state in which queueing a failed job again gives its target two unfinished jobs |
| Lifecycle.CreateJobAnswers | apps/api/monitube_api/infrastructure/memory_jobs.py:35-78 | who is refused a job and why, and that a target with an unfinished job gets no second one |
| Lifecycle.TargetJobIsNew | apps/api/monitube_api/infrastructure/memory_jobs.py:45-78 | a new job of a target can be claimed at once and does exactly the work its source asks for |
| Lifecycle.CreateJobKeeps | apps/api/monitube_api/infrastructure/memory_jobs.py:35-78 | creating a job keeps the store well formed |
| Lifecycle.ClaimKeeps | apps/api/monitube_api/infrastructure/memory_jobs.py:626-649 | claiming keeps the store well formed |
| Lifecycle.EnqueueKeeps | apps/api/monitube_api/infrastructure/memory_jobs.py:80-105 | fan-out keeps the store well formed |
| Lifecycle.DispatchKeeps | apps/api/monitube_api/infrastructure/memory_results.py:52-73 | dispatching a due pin keeps the store well formed |
| Lifecycle.DispatchMeans | apps/api/monitube_api/infrastructure/memory_results.py:52-73 | a dispatched pin comes up again after its interval and is dated only if a job started, which happens unless one is unfinished; without an enabled subscription it goes off |
| Sources.SyncPinMeans | apps/api/monitube_api/infrastructure/memory_repository.py:205-231 | a pin is on exactly while somebody has the target enabled, a direct video is never given one, and nothing else changes |
| Sources.EnsureSubscriptionKeeps | apps/api/monitube_api/infrastructure/memory_repository.py:296-330 | the (user, target) index stays one to one |
| Sources.EnsuredIsEnabled | apps/api/monitube_api/infrastructure/memory_repository.py:296-330 | the user has an enabled subscription to the target, found by the index, and every other subscription is as it was |
| Sources.UpdateSourceMeans | apps/api/monitube_api/infrastructure/memory_repository.py:404-432 | a subscription is switched as asked with its pin, a config is replaced as asked, and whatever is not given stays |
| Sources.CreatedSourceIsLegacy | apps/api/monitube_api/infrastructure/memory_repository.py:332-342 | a created source belongs to its owner and to no target |
| Sources.UpdateSourceKeeps | apps/api/monitube_api/infrastructure/memory_repository.py:404-432 | editing keeps the store well formed |
| Sources.DeleteSubscriptionKeeps | apps/api/monitube_api/infrastructure/memory_repository.py:434-454 | removing a subscription keeps the store well formed |
| Sources.DeletedSubscriptionIsGone | apps/api/monitube_api/infrastructure/memory_repository.py:434-454 | a removed subscription is gone with its index entry, and requests made through it stay but can no longer be replayed |
| Sources.DeleteSourceAnswers | apps/api/monitube_api/infrastructure/memory_repository.py:434-492 | who may delete what: a subscription, a legacy source with its jobs, or a whole target |
| Sources.RemovalIsExact | apps/api/monitube_api/infrastructure/memory_repository.py:455-492 | with a target go exactly its names, sources and requests |
| Sources.RemovalTakesJobs | apps/api/monitube_api/infrastructure/memory_repository.py:455-492 | and exactly the jobs of its sources, its pin and its membership |
| Sources.RemoveTargetKeepsIffUnclaimed | apps/api/monitube_api/infrastructure/memory_repository.py:455-492 | deleting a target keeps the store well formed if and only if nobody subscribes to it |
| Counterexamples.DeletionStrandsSubscriber | apps/api/monitube_api/infrastructure/memory_repository.py:455-492 | a run from the empty store to a state in which an allowed deletion leaves a subscription to a target that is gone |
| Sources.DeleteSourceKeeps | apps/api/monitube_api/infrastructure/postgres_repository.py:853-861 | with the guard of the PostgreSQL twin, every deletion keeps the store well formed |
| Sources.SetPinMeans | apps/api/monitube_api/infrastructure/memory_results.py:33-45 | a pin set by hand is due at once when switched on and otherwise when it was, and keeps its last dispatch |
| Sources.LinkVideoMeans | apps/api/monitube_api/infrastructure/memory_collection.py:44-54 | one video joins the membership of the target behind the public id, and keeps a date it had |
| Sources.LinkVideoKeeps | apps/api/monitube_api/infrastructure/memory_collection.py:44-54 | linking a video keeps membership and first-seen times in step |
| Store.PrimaryIsBroadest | apps/api/monitube_api/infrastructure/memory_repository.py:233-251 | the chosen worker source collects comments if any candidate does, and among those that agree has the greatest limits, in turn |
| Store.CandidatesAre | apps/api/monitube_api/infrastructure/memory_repository.py:233-251 | the candidates are the sources that requests of the target name, or all of its sources when none is named |
| Store.PrimaryBacks | apps/api/monitube_api/infrastructure/memory_repository.py:233-251 | the chosen worker source belongs to the target; none is chosen only when the target has none |
| Promotion.MergeKeeps | apps/api/monitube_api/infrastructure/memory_jobs.py:325-399 | merging two targets keeps the whole store well formed |
| Promotion.PromoteKeeps | apps/api/monitube_api/infrastructure/memory_jobs.py:312-408 | promotion keeps it well formed, whether it renames or merges |
| Promotion.SurvivorIs | apps/api/monitube_api/infrastructure/memory_jobs.py:312-324 | a promotion happens exactly to the channel target of a known source, and ends at the target that has the canonical key, or else at the same one |
| Promotion.MovedKeepsKey | apps/api/monitube_api/infrastructure/memory_jobs.py:350-371 | a moved request keeps its key unless the survivor has a request of the same user under it |
| Promotion.MovedWithoutKey | apps/api/monitube_api/infrastructure/memory_jobs.py:350-371 | a request without a key gets none |
| Promotion.MergeKeepsKeys | apps/api/monitube_api/infrastructure/memory_jobs.py:350-371 | every user and key of either target names exactly one request of the survivor |
| Promotion.MergeMovesWork | apps/api/monitube_api/infrastructure/memory_jobs.py:326-376 | sources move with all they have, and jobs too, but an unfinished one lets go when the survivor has its own |
| Promotion.MergeKeepsOtherTargets | apps/api/monitube_api/infrastructure/memory_jobs.py:381-399 | every other target keeps its record, name, pin and membership, and the survivor takes over the pin if it has none |
| Promotion.MergeKeepsOtherSubscriptions | apps/api/monitube_api/infrastructure/memory_jobs.py:331-371 | other subscriptions stay, and a moved request goes on with its own user's subscription to the survivor |
| Promotion.RetiredIsGone | apps/api/monitube_api/infrastructure/memory_jobs.py:325-399 | after a merge no source, subscription, index entry, request, job, alias, key, pin or membership names the retired target |
| Promotion.SubscribersKept | apps/api/monitube_api/infrastructure/memory_jobs.py:331-349 | every subscriber of either target is subscribed to the survivor, enabled if either subscription was |
| Promotion.MembershipIsUnited | apps/api/monitube_api/infrastructure/memory_jobs.py:382-393 | video membership is the union, each video with the earlier of its first-seen times |
| Promotion.MergeLosesNothing | apps/api/monitube_api/infrastructure/memory_jobs.py:325-399 | no request, source or job is lost, a moved request keeps its source, config, job, status and user, and other targets' records are untouched |
| Coverage.CompletionCovers | apps/api/monitube_api/infrastructure/memory_jobs.py:601-607 | one step of the completion theorem: the recorded coverage satisfies each attached request |
| Coverage.CompletionRecordsWork | apps/api/monitube_api/infrastructure/memory_jobs.py:601-607 | in terms of work: the record includes what each attached request asks for and exactly what the job did |
| Coverage.SubmitCovers | apps/api/monitube_api/infrastructure/memory_jobs.py:246-307 | a submission keeps every job covering its requests |
| Coverage.TransitionCovers | apps/api/monitube_api/infrastructure/memory_jobs.py:566-624 | a transition keeps it, the successor included |
| Coverage.PromoteCovers | apps/api/monitube_api/infrastructure/memory_jobs.py:312-408 | a promotion keeps it |
| CollectionPolicy.SatisfiedIsCollected | apps/api/monitube_api/collection_policy.py:75-94 | a coverage that satisfies a request is complete and includes all the work the request asks for |
| CollectionPolicy.CollectedSatisfies | apps/api/monitube_api/collection_policy.py:75-94 | and one that does satisfies it, if its limits reach those of the request even where everything was collected |
| CollectionPolicy.DesiredIsAsked | apps/api/monitube_api/collection_policy.py:9-33 | the desired coverage of a config stands for the work it asks for |
| CollectionPolicy.JobCoverageIsDone | apps/api/monitube_api/collection_policy.py:97-125 | the coverage of a job stands for exactly the work in its scope, with the config of its source where the scope sets no limit |
| CollectionPolicy.MergeAsksForBoth | apps/api/monitube_api/collection_policy.py:36-72 | the merged config asks for the uploads, search pages and comment pages of either request, and for no upload or search page of neither |
| CollectionPolicy.FirstIdentityStays | apps/api/monitube_api/collection_policy.py:36-72 | over any sequence of merges a setting that identifies the target keeps its first value |
| CollectionPolicy.ForeignSettingsStay | apps/api/monitube_api/collection_policy.py:36-72 | and so does a limit that does not count for the type |
| CollectionPolicy.MergeCoversIncoming | apps/api/monitube_api/collection_policy.py:36-72 | merging covers the incoming request if and only if the channel limits meet a stated test |
| CollectionPolicy.MergeCoversCurrent | apps/api/monitube_api/collection_policy.py:36-72 | likewise for the config that was there before |
| CollectionPolicy.MergeOrderIsIrrelevant | apps/api/monitube_api/collection_policy.py:36-72 | as breadth, merging is commutative and associative although configs are merged key by key |
| CollectionPolicy.MergeAllCoversEach | apps/api/monitube_api/collection_policy.py:36-72 | however many requests are merged, in whatever order, the result covers every one |
| CollectionPolicy.MergeAllIsJoint | apps/api/monitube_api/collection_policy.py:36-72 | each flag is set exactly when someone set it, and a channel limit is one that somebody asked for |
| CollectionPolicy.MergeIsLeastIffTight | apps/api/monitube_api/collection_policy.py:36-72 | merging is the least upper bound if and only if a request without comments brings no comment settings beyond those of the other |
| CollectionPolicy.AbsentLimitIsLost | apps/api/monitube_api/collection_policy.py:36-72 | two configs for which merging loses part of a request |
| CollectionPolicy.MergeOverasks | apps/api/monitube_api/collection_policy.py:36-72 | two configs for which merging asks for more than either |
| CollectionPolicy.NeverJoins | apps/api/monitube_api/collection_policy.py:75-125 | no desired coverage is satisfied by the coverage of a running job |
| Jobs.NoJobIsForgotten | apps/api/monitube_api/infrastructure/memory_jobs.py:626-649 | from the later of its deadline and its time to resume on, a claim on any store with an unfinished job finds a job, and none younger |
| Jobs.ClaimTakesOnlyFree | apps/api/monitube_api/infrastructure/memory_jobs.py:626-649 | a claim takes no finished job, none before its time to resume and none before its deadline, and a longest waiting one of the rest |
| Jobs.ClaimFindsOldest | apps/api/monitube_api/infrastructure/memory_jobs.py:626-649 | a claim finds a job exactly when some job is unfinished, due and free |
| Jobs.ClaimedIsHeld | apps/api/monitube_api/infrastructure/memory_jobs.py:626-657 | a claimed job can be renewed by its worker only, and is claimable again exactly from its deadline on |
| Jobs.RenewedIsHeld | apps/api/monitube_api/infrastructure/memory_jobs.py:651-657 | a renewal moves the deadline and nothing else |
| Jobs.MovesByDestination | apps/api/monitube_api/repositories.py:308-326 | the state machine read by destination: from which states each state can be reached in one step |
| Jobs.TerminalMeansOver | apps/api/monitube_api/domain.py:43-50 | a state is terminal exactly when the job cannot run again from it without being queued, and a success exactly when it cannot be queued either |
| Jobs.MoveWritesWhatIsGiven | apps/api/monitube_api/infrastructure/memory_jobs.py:584-594 | a move writes the fields it is given, so a written checkpoint is where the job resumes, and keeps the rest |
| Jobs.ChildIsForItsVideo | apps/api/monitube_api/infrastructure/memory_jobs.py:80-105 | a child is queued and free, for its video and its parent, with one video to collect and the comment pages of its parent |
| Jobs.EnqueueOnlyAdds | apps/api/monitube_api/infrastructure/memory_jobs.py:80-105 | fan-out keeps every job and adds only queued children of the parent, one for a requested video |
| Jobs.EnqueueIsIdempotent | apps/api/monitube_api/infrastructure/memory_jobs.py:80-105 | afterwards every requested video has exactly one child, however often discovery is replayed |
| Jobs.SummaryDecidesSuccess | apps/api/monitube_api/infrastructure/memory_jobs.py:107-117 | the three counts allow success exactly when every child succeeded |
| FanOut.FanOutIsSafe | apps/worker/monitube_worker/collector.py:157-212 | in every run that stays out of the gap, a completed fan-out job has only successful children, from then on, and no video has two children of one job |
| FanOut.FanOutIsSafeFromStart | apps/worker/monitube_worker/collector.py:157-212 | so for every such run from an empty store |
| FanOut.UnmergedFanOutIsSafe | apps/worker/monitube_worker/collector.py:157-212 | and for every run from an empty store in which no merge detaches a job, wherever workers crash |
| FanOut.DiscoveryGetsDone | apps/worker/monitube_worker/collector.py:157-204 | an undisturbed discovery gives every video a child, records that it did, and lets go of the job |
| FanOut.DiscoveredJobCompletesIffChildrenDid | apps/worker/monitube_worker/collector.py:205-212 | woken and picked up again, a job that recorded its discovery completes if and only if all of its children succeeded |
| FanOut.StepKeepsInv | apps/worker/monitube_worker/collector.py:157-212 | each step of worker, crash, merge and claim keeps that |
| FanOut.PickUpCompletesIffInGap | apps/worker/monitube_worker/collector.py:157-212 | whatever steps a worker takes after picking up a job whose children have not all succeeded, counting them included, it can complete the job, with or without warnings, if and only if it takes none and the job is in the gap |
| FanOut.GapIsUnsafe | apps/worker/monitube_worker/collector.py:183-187 | a job in the gap that is picked up again ends up successful beside a child that is not |
| FanOut.GapIsReachable | apps/worker/monitube_worker/collector.py:183-201 | any discovery can end in the gap |
| Checkpoints.IdentitySurvives | apps/worker/monitube_worker/collection/checkpoints.py:8-38 | job kind, video id and the discovered flag survive every sequence of checkpoint rewrites |
| Checkpoints.CursorRoundTrip | apps/worker/monitube_worker/collection/checkpoints.py:19-53 | a written cursor is read back by its own stage and scope and by no other |
| Checkpoints.ProgressKeepsCursor | apps/worker/monitube_worker/collection/checkpoints.py:56-71 | progress, quota and fan-out rewrites never move a page cursor |
| Checkpoints.RewriteIsReadBack | apps/worker/monitube_worker/collector.py:130-204 | a quota retry is counted, and an expected total and a discovery are read back |
| Checkpoints.ProgressIsReadBack | apps/worker/monitube_worker/collection/checkpoints.py:56-71 | the progress of a phase is read back, negative numbers as zero, and other phases keep theirs |
| Checkpoints.CursorKeepsLastingKeys | apps/worker/monitube_worker/collection/checkpoints.py:8-38 | a new cursor carries over the lasting keys and drops all others |
| CommentWalk.CommentCollector.CollectAcrossRuns | apps/worker/monitube_worker/collector.py:238-263 | after any runs, capped, incremental or interrupted at any call, one uninterrupted full run leaves exactly the public comments stored, if and only if fewer are stored before it than the video advertises or they are all there already |
| CommentWalk.CollectWithAccurateCount | apps/worker/monitube_worker/collection/comments.py:56-202 | with an advertised count that is not too low, the final full run always leaves exactly the public comments |
| CommentWalk.LaggingCountSkipsComments | apps/worker/monitube_worker/collector.py:257-260 | a video that advertises no comment yet has its comment skipped |
| CommentWalk.CommentCollector.RunVideoJob | apps/worker/monitube_worker/collector.py:238-263 | one claimed run, resuming from the cursor read at claim time, leaves only genuine rows and no cursor past missing data, wherever it stops |
| CommentWalk.CommentCollector.CollectComments | apps/worker/monitube_worker/collection/comments.py:108-202 | an undisturbed walk stores exactly the pages from the resumed cursor to its cap or incremental boundary and leaves the cursor there |
| CommentWalk.CommentCollector.CollectNextPage | apps/worker/monitube_worker/collection/comments.py:114-200 | one thread page with everything it needs, and whether all it lists was known |
| CommentWalk.CommentCollector.CollectThreadPage | apps/worker/monitube_worker/collection/comments.py:144-194 | the checkpoint that moves past a page commits only with the last piece of data the page requires |
| CommentWalk.CommentCollector.CollectRemainingReplies | apps/worker/monitube_worker/collection/comments.py:56-106 | every reply page of a top-level comment is stored, and the final checkpoint commits with the last one |
| CommentWalk.CommentCollector.PersistCommentPage | apps/worker/monitube_worker/collection/comments.py:32-54 | rows and checkpoint commit together or not at all, and the in-memory cursor follows only a commit |
| CommentWalk.IncrementalWalkStops | apps/worker/monitube_worker/collection/comments.py:196-200 | an incremental walk goes on through every page that shows a comment it did not know and ends after the first that shows none |
| CommentWalk.ThreadYieldComplete | apps/worker/monitube_worker/collection/comments.py:146-170 | a thread loses no reply if and only if its advertised total exceeds the embedded replies or they are all there are |
| CommentWalk.ExactCountsAreServed | apps/worker/monitube_worker/collection/comments.py:157-170 | with an exact totalReplyCount every thread is either walked or embedded in full |
| Rollups.EveryHistoryKeepsRollups | apps/api/monitube_api/infrastructure/postgres_writes.py:201-477 | over every history of pages, replays, in-page duplicates and edits without empty parents, each rollup row equals the count over comments |
| Rollups.PageKeepsRollups | apps/api/monitube_api/infrastructure/postgres_writes.py:243-442 | after one page the row equals the recount if and only if the page was recounted or adds no comment with an empty parent; other rows are untouched |
| Rollups.CheckpointCommits | apps/api/monitube_api/infrastructure/postgres_writes.py:444-454 | with a page its checkpoint commits: the job resumes where it says, every other job where it did, and no job appears or goes |
| Rollups.PageAcceptedIff | apps/api/monitube_api/infrastructure/postgres_writes.py:234-454 | a page is accepted if and only if it is of one stored video, moves no comment, and its checkpoint is for a running job |
| Rollups.DeltaIsRecount | apps/api/monitube_api/infrastructure/postgres_writes.py:408-442 | the delta path equals the recount if and only if no added comment carries an empty parent id |
| Rollups.EmptyParentMiscounts | apps/api/monitube_api/infrastructure/postgres_writes.py:408-442 | two pages, from an empty store, after which a rollup row differs from the count |
| Rollups.OtherVideosUntouched | apps/api/monitube_api/infrastructure/postgres_writes.py:243-442 | a page changes no count of another video |
| Rollups.LastValueWins | apps/api/monitube_api/infrastructure/postgres_writes.py:227-233 | of several values of one id on a page the last is kept |
| Rollups.ReplayIsHarmless | apps/api/monitube_api/infrastructure/postgres_writes.py:201-477 | replaying a page succeeds and inflates no count; all rows are unchanged if and only if no reply on it answers another reply that was new |
| Rollups.TwoPassesAreUpserted | apps/api/monitube_api/infrastructure/postgres_writes.py:317-350 | writing top-level comments first and replies second resolves every parent as if at once |
| Rollups.CommentStore.PersistCommentPage | apps/api/monitube_api/infrastructure/postgres_writes.py:201-477 | the transaction is the specified page write, with each of its errors, and all or nothing |
| Rollups.CommentStore.WriteRollup | apps/api/monitube_api/infrastructure/postgres_writes.py:373-442 | the in-place choice between recount and increment is the specified one |
| Backfill.RollupBackfill.Run | apps/worker/monitube_worker/rollup_backfill.py:444-537 | a completed run leaves every rollup equal to its recount whatever others did; with dual writers and a fixed video set it terminates and completes, given two passes or a sound cursor |
| Backfill.RollupBackfill.TakeTurn | apps/worker/monitube_worker/rollup_backfill.py:479-520 | every turn decreases the lexicographic measure (turns of others, passes, phase, videos after the cursor) and keeps the cursor sound |
| Backfill.RollupBackfill.TakeBatch | apps/worker/monitube_worker/rollup_backfill.py:484-497 | a batch applied in a later transaction than it was fetched in keeps the cursor sound and makes progress, or leaves the progress record as it was after a lock timeout |
| Backfill.RollupBackfill.ApplyBatch | apps/worker/monitube_worker/rollup_backfill.py:266-333 | one batch recounts its videos and moves the cursor to the last |
| Backfill.RollupBackfill.MarkReady | apps/worker/monitube_worker/rollup_backfill.py:374-423 | ready is set exactly when reconciling and every video is correct |
| Backfill.RollupBackfill.ResumeFailed | apps/worker/monitube_worker/rollup_backfill.py:244-248 | a failed run resumes in the phase it failed in, with its cursor |
| Backfill.BatchSkipsNothing | apps/worker/monitube_worker/rollup_backfill.py:250-264 | everything a batch leaves out lies after its last video |
| Backfill.BatchAdvancesCursor | apps/worker/monitube_worker/rollup_backfill.py:266-333 | every video at or below the cursor stays correct |
| Backfill.CleanMeansCorrect | apps/worker/monitube_worker/rollup_backfill.py:335-372 | the two mismatch counts are zero if and only if every video is correct |
| Backfill.FastReadIsSlowRead | apps/api/monitube_api/infrastructure/postgres_results.py:373-402 | over any set of visible videos the rollup form and the direct form give the same count and the same latest time |
| Backfill.ReadyReadsAgree | apps/api/monitube_api/infrastructure/postgres_explore.py:109-123 | once ready, and as long as writers dual-write, both forms agree whatever is written and whichever videos are added |
| Backfill.DualWritersKeepCounted | apps/api/monitube_api/infrastructure/postgres_writes.py:230-442 | a missing row counts as zero correctly, from a video's first page on |
| Paging.PageIsFirstBeyond | apps/api/monitube_api/infrastructure/memory_results.py:512-534 | a page is the first `limit` keys beyond the cursor, largest first when descending, with a cursor only when more follow |
| Paging.PagingIsExact | apps/api/monitube_api/infrastructure/memory_results.py:490-534 | over a fixed set the pages concatenate to the sorted list, largest first when descending, each key once |
| Paging.NothingTwice | apps/api/monitube_api/infrastructure/memory_results.py:512-534 | whatever happens to the set between requests, no key comes twice |
| Paging.NothingMissed | apps/api/monitube_api/infrastructure/memory_results.py:512-534 | a finished walk delivers every key that was there at every request |
| Paging.NothingInvented | apps/api/monitube_api/infrastructure/memory_results.py:512-534 | only keys some request could see are delivered |
| Paging.PagesAreFull | apps/api/monitube_api/infrastructure/memory_results.py:512-534 | every page but the last holds `limit` keys |
| Listings.PagesReproduceSnapshot | apps/api/monitube_api/infrastructure/memory_results.py:146-203 | following next_cursor text from the first page delivers the listing of the first request, newest first by date, fetch time (for an owner) and id, once each, with a constant total equal to the number delivered, while quiet changes happen between calls |
| Listings.PublicListingShowsStored | apps/api/monitube_api/infrastructure/memory_results.py:490-534 | the public listing has a video from the moment it was first stored on |
| Listings.SortedIsNewestFirst | apps/api/monitube_api/infrastructure/memory_results.py:502-511 | what a listing delivers is ordered by published time, or fetch time when that is missing, then for an owner by fetch time, then by id, the greatest first |
| Listings.QuietRunKeepsListing | apps/api/monitube_api/infrastructure/memory_results.py:490-534 | changes that keep the sort keys of what a listing shows never alter its snapshot |
| Listings.NewLinkKeepsListingIffLater | apps/api/monitube_api/infrastructure/memory_collection.py:44-54 | a new link leaves a snapshot alone if and only if it is later than the snapshot |
| Listings.SameInstantLinkShowsUp | apps/api/monitube_api/infrastructure/memory_collection.py:44-54 | an empty snapshot that is no longer empty after a link at its own instant |
| Listings.UpsertKeepsListingIffSameKey | apps/api/monitube_api/infrastructure/memory_collection.py:24-30 | storing a listed video again leaves a snapshot alone if and only if it still passes the filter and its sort key is the same; an owner's key includes the fetch time |
| Listings.RecollectionResortsOwnerListings | apps/api/monitube_api/infrastructure/memory_collection.py:24-30 | an ordinary re-collection of a published video never disturbs a source listing and always disturbs an owner's listing that shows it |
| Listings.FoldDecidesListing | apps/api/monitube_api/infrastructure/memory_results.py:355-376 | a video is listed for its owner at a snapshot exactly when the membership fold dates it no later |
| Listings.VideoLibrary.VisibleVideoMembership | apps/api/monitube_api/infrastructure/memory_results.py:355-376 | the fold over subscriptions dates each video by the earliest time it could be seen |
| Listings.VideoLibrary.LinkSourceVideo | apps/api/monitube_api/infrastructure/memory_collection.py:44-54 | the in-place link keeps the first first-seen time |
| Listings.VideoLibrary.UpsertVideo | apps/api/monitube_api/infrastructure/memory_collection.py:24-30 | the in-place upsert is the specified change |
| Listings.CursorCarries | apps/api/monitube_api/repositories.py:103-240 | the cursor text carries the key of the last video and the snapshot, exactly |
| Cursor.TextRoundTrip | apps/api/monitube_api/repositories.py:124-141 | decoding undoes encoding for every byte string, and the text carries no padding |
| Cursor.TextIsDigits | apps/api/monitube_api/repositories.py:107-125 | the text has one digit for every six bits and no padding |
| Cursor.SextetsSpellBytes | apps/api/monitube_api/repositories.py:107-125 | each three bytes and their four digits spell the same number, as section 4 of RFC 4648 asks |
| Cursor.DigitsRunThroughAlphabet | apps/api/monitube_api/repositories.py:107-125 | the digits run through the alphabet of section 5 of RFC 4648 |
| Cursor.SourceCursorRoundTrip | apps/api/monitube_api/repositories.py:107-162 | a source cursor opens exactly under the scope, filter and sort it was minted for |
| Cursor.ExploreCursorRoundTrip | apps/api/monitube_api/repositories.py:178-240 | likewise for explore cursors |
| Cursor.SourceCursorStaysOut | apps/api/monitube_api/repositories.py:200-240 | a source cursor is refused by the explore listing, whatever it is bound to |
| Cursor.ExploreCursorStaysOut | apps/api/monitube_api/repositories.py:128-162 | an explore cursor is refused by the source listing |
| JaroWinkler.JaroWinklerSimilarity | apps/api/monitube_api/fuzzy_search.py:19-67 | the loops over match arrays compute the specified score, which lies in [0,1] and is 1 exactly for equal strings |
| JaroWinkler.SimilarityRange | apps/api/monitube_api/fuzzy_search.py:19-67 | the score is in [0,1], is 1 exactly when the strings are equal, and 0 exactly when they differ and share no character in reach |
| JaroWinkler.SwappedPair | apps/api/monitube_api/fuzzy_search.py:19-67 | one worked score: abcd against abdc is 14/15 |
| JaroWinkler.ReachIsHalf | apps/api/monitube_api/fuzzy_search.py:27-31 | characters are in reach when twice their distance leaves two characters of the longer string over |
| JaroWinkler.PrefixClosesTenths | apps/api/monitube_api/fuzzy_search.py:56-67 | a common prefix of p characters takes away p tenths of what is missing to 1 |
| JaroWinkler.SameCharacters | apps/api/monitube_api/fuzzy_search.py:27-41 | both match arrays mark the same characters, so equally many |
| JaroWinkler.PartnersMatch | apps/api/monitube_api/fuzzy_search.py:32-41 | every marked character has its own equal partner within the match distance |
| JaroWinkler.MatchingIsMaximal | apps/api/monitube_api/fuzzy_search.py:32-41 | an unmarked character has no equal unmarked character in reach |
| JaroWinkler.CountTranspositions | apps/api/monitube_api/fuzzy_search.py:46-55 | the two-pointer scan counts the positions at which matched characters differ and never leaves the right array |
| FuzzySearch.TextSimilarityRange | apps/api/monitube_api/fuzzy_search.py:70-93 | a text scores in [0,1], and 1 exactly when the query is part of it or equals one of its words |
| FuzzySearch.BestCandidateWins | apps/api/monitube_api/fuzzy_search.py:70-93 | no window or word of the text scores higher than the text |
| FuzzySearch.ScoreIsOfCandidate | apps/api/monitube_api/fuzzy_search.py:70-93 | and a score strictly between 0 and 1 is that of a word, of the whole text, or of a part at most two characters shorter or longer than the query |
| FuzzySearch.NothingScoresZero | apps/api/monitube_api/fuzzy_search.py:70-80 | nothing is similar to a missing or empty text, or to an empty query |
| FuzzySearch.ComputeTextSimilarity | apps/api/monitube_api/fuzzy_search.py:70-93 | the loops over words and windows compute that score |
| FuzzySearch.MultiTermAllOrNothing | apps/api/monitube_api/fuzzy_search.py:96-121 | a query of two or more terms scores exactly 1 with at least one field when every term is present, and 0 with no field otherwise |
| FuzzySearch.SingleTermRanksBestField | apps/api/monitube_api/fuzzy_search.py:96-121 | a single term scores its best field and lists exactly the fields that reach the threshold |
| FuzzySearch.RankTextFields | apps/api/monitube_api/fuzzy_search.py:96-121 | the loops over fields and terms compute that ranking |
| Leases.LeasesExclude | apps/worker/monitube_worker/runner.py:47-100 | over any run of ticks, claims, renewals and holders' transitions, two workers never both have an open window on one job |
| Leases.LeasesExcludeFromStart | apps/worker/monitube_worker/runner.py:47-100 | so for every such run from a store in which no worker holds anything |
| Coordinator.LeaseEventsTakeEffect | apps/api/monitube_api/infrastructure/memory_jobs.py:626-657 | in a run, a claim or renewal leaves the job with its worker until the deadline and touches no other job |
| Leases.StepKeepsExclusion | apps/api/monitube_api/infrastructure/memory_jobs.py:626-657 | each step keeps that |
| Leases.ReleaseIsSafeIffNobodyElseHolds | apps/worker/monitube_worker/runner.py:47-100 | giving a job back keeps exclusion if and only if nobody else holds it |
| Leases.StaleReleaseBreaksExclusion | apps/worker/monitube_worker/runner.py:47-100 | a release after one's own window lets a third worker claim the job under its holder |
| Leases.StaleReleaseIsReachable | apps/worker/monitube_worker/runner.py:47-100 | the run that leads there: a new job is claimed, the lease runs out, another worker claims the job, and then the first one gives it back |
| LockOrder.LockPlanAscends | apps/api/monitube_api/infrastructure/postgres_jobs.py:677-749 | every transition locks its targets in ascending order, its own among them, and the job row last |
| LockOrder.SomeoneCanProceed | apps/api/monitube_api/infrastructure/postgres_jobs.py:677-749 | whatever set of transitions runs, one of them can proceed |
| LockOrder.EveryScheduleFinishes | apps/api/monitube_api/infrastructure/postgres_jobs.py:677-749 | every schedule is finite, and one that cannot be extended has committed all of them |
| LockOrder.TransitionsAllCommit | apps/api/monitube_api/infrastructure/postgres_jobs.py:677-749 | so for any set of transitions started together: whatever the schedule, one that cannot be extended has committed all of them |
| LockOrder.PromotionIsSafeIffUpwards | apps/api/monitube_api/infrastructure/postgres_jobs.py:430-462 | a promotion can run beside every set of transitions without any of them getting stuck, in every schedule, if and only if it merges into the target with the higher id |
| LockOrder.DownwardsGetsStuck | apps/api/monitube_api/infrastructure/postgres_jobs.py:430-462 | otherwise one transition and two steps are enough |
| Discovery.ChannelVideoIds | apps/worker/monitube_worker/collection/discovery.py:61-117 | the page loop returns the specified ids, with the stored ones among them, and misses no upload when the advertised count does not lag behind |
| Discovery.NothingIsMissed | apps/worker/monitube_worker/collection/discovery.py:61-117 | with stored videos in the playlist and an advertised count of at least its size, each upload not stored at the start is returned, once |
| Discovery.NothingIsMissedIff | apps/worker/monitube_worker/collection/discovery.py:61-117 | for a set of uploads and of stored videos, nothing unstored is missed in any order and paging of the playlist if and only if the shortcut is off, or all of the uploads are stored, or none |
| Discovery.BackfillSeesEverything | apps/worker/monitube_worker/collection/discovery.py:72-76 | with fewer videos stored than advertised, every upload is returned |
| Discovery.LimitedWalk | apps/worker/monitube_worker/collection/discovery.py:84-108 | a limited listing is the first distinct uploads, however the provider pages them |
| Discovery.StaleCountHidesUpload | apps/worker/monitube_worker/collection/discovery.py:107-112 | the smallest case: one stored, one not, and a count of one |

## Left out

- The web app, routers, request validation, presenters, authentication, key encryption and settings; the config contract that validation guarantees is a precondition where it matters.
- SQL text, planner flags, trigram search and snapshot statistics: tables are maps and each transaction is one atomic step, except in `LockOrder`.
- Redis caching, the analysis worker, top-word counting, keyword discovery, channel and video parsing, and error classification beyond the outcome of a collection step.
- Unicode normalisation and word splitting are parameters of search, and JSON and the text of times are a lawful codec, so nothing is claimed about them.
- Display fields of sources, progress and stage fields of jobs, pauses and partial error lists carry no decision in the modelled operations.
- `data_version` and cache invalidation after a transition.
- Comment and reply cursors: their decoder accepts more texts than were minted; their pages are the generic ones of `Paging`.
- Deleting videos while a backfill runs, and its advisory lock.
- The path with `enable_comment_batch_write` switched off, which commits rows and checkpoint separately.
- `processed` of the backfill after a failure recorded in phase ready: the run resumes with no cursor and keeps the count, so it can count a video twice; only what the count is set to is modelled.
- Promotion.PromoteKeeps: the channel handle arrives case-folded, and a membership that was never dated gets time 0 where the code takes the smallest time there is; a well-formed store has none.
- Locks of request submission, of source rows, and of the request and subscription rows that a transition or a promotion updates (postgres_jobs.py:462-540) are not part of the lock model.
- Coordinator.CompletionCoversItsRequests: speaks of targets with one worker source and of jobs that end in state completed, because after a merge the job may run for the other source, and because the in-memory repository records coverage for no other state; an edit of a shared worker source without a subscription is outside it.
- Coordinator.EveryRunKeepsTheStoreWellFormed: deletions of a target with subscribers are excluded, because the in-memory code leaves the check to its caller; the PostgreSQL twin then removes the one source only, which is not modelled.
- Lifecycle.TransitionKeeps: follows the guard `became_terminal` of the PostgreSQL twin (postgres_jobs.py:756) and its partial index on unfinished jobs, which refuses to queue a finished job again while its target has another one; what the unguarded in-memory hooks do is `Lifecycle.RerunHooksSafeIffNobodyWaits`.
- Repository.InMemoryRepository.TransitionJob: has the same guard and the same refusal.
- Leases.LeasesExclude: transitions of a worker are made while its window is open; the repository does not check this.
- FanOut.FanOutIsSafe: runs stay out of the gap, and one worker at a time works on a discovery job, which leases give only to workers that stay inside their window.
- CommentWalk.CommentCollector.CollectAcrossRuns: the upstream's comments stay the same over all runs, and the final run is neither capped nor incremental.
- JaroWinkler.SimilarityRange: over real numbers; rounding of floats is not modelled, and neither is symmetry.
- Store.PrimaryBacks: which of several sources of equal rank is chosen is left open, as it depends on dictionary order.
- Listings.PagesReproduceSnapshot: source and explore listings by video; snapshot times are whole numbers.
