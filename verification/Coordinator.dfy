/** Every operation of the coordinator, and what holds after any sequence of them. */
module Coordinator {
  import opened Common
  import opened CollectionPolicy
  import opened Jobs
  import opened Store
  import opened Sources
  import opened Lifecycle
  import opened Submission
  import opened Promotion
  import opened Coverage

  datatype Event =
    | SubmitRequest(sub: Submission, ids: Choices)
    | CreateManualJob(id: Id, owner: Option<Id>, scope: Scope, newJob: Id, primary: Option<Id>)
    | MoveJobTo(job: Id, state: JobState, changes: Changes, newJob: Id, primary: Option<Id>)
    | ClaimJob(job: Id, worker: Id, seconds: int)
    | RenewLease(job: Id, worker: Id, seconds: int)
    | FanOutJob(job: Id, videos: seq<string>, jobIds: seq<Id>)
    | DispatchDue(target: Id, newJob: Id, primary: Option<Id>)
    | PinTarget(target: Id, enabled: bool, interval: nat)
    | PromoteTarget(source: Id, channelId: string, handle: Option<string>)
    | NewLegacySource(id: Id, kind: SourceType, config: Config, owner: Option<Id>)
    | EditSource(id: Id, owner: Option<Id>, newEnabled: Option<bool>, newConfig: Option<Config>)
    | RemoveSourceById(id: Id, owner: Option<Id>)
    | LinkSourceVideo(source: Id, video: Id)
    | SubscribeTo(user: Id, target: Id, subscription: Id)

  /** What callers and the environment guarantee: unused ids, the repository's own choices, a job the
      claim query returns, and no deletion of a target somebody subscribes to. */
  ghost predicate Enabled(st: Store, e: Event, now: int) {
    match e
    case SubmitRequest(sub, ids) => FreshChoices(st, sub, ids)
    case CreateManualJob(id, owner, scope, newJob, primary) =>
      newJob !in st.jobs && (id in st.subscriptions ==> IsPrimary(st, st.subscriptions[id].target, primary))
    case MoveJobTo(j, state, changes, newJob, primary) =>
      newJob !in st.jobs && (j in st.jobs ==> PrimaryFor(st, st.jobs[j].target, primary))
    case ClaimJob(j, worker, seconds) => IsOldestClaimable(st.jobs, j, now)
    case RenewLease(j, worker, seconds) => j in st.jobs && Renewable(st.jobs[j], worker)
    case FanOutJob(p, videos, jobIds) => p in st.jobs && |jobIds| == |videos| && UnusedIds(st.jobs, jobIds)
    case DispatchDue(t, newJob, primary) =>
      t in st.pins && st.pins[t].enabled && st.pins[t].nextRun <= now && newJob !in st.jobs && IsPrimary(st, t, primary)
    case PinTarget(t, _, _) => t in st.targets
    case PromoteTarget(_, _, _) => true
    case NewLegacySource(id, _, _, _) => id !in st.sources && id !in st.subscriptions
    case EditSource(_, _, _, _) => true
    case RemoveSourceById(id, owner) =>
      id in st.sources && st.sources[id].target.Some? && !OwnSubscription(st, id, owner) ==>
        !Subscribed(st.subscriptions, st.sources[id].target.value)
    case LinkSourceVideo(_, _) => true
    case SubscribeTo(_, _, subscription) => subscription !in st.subscriptions
  }

  ghost function Resulting(st: Store, result: Result<Store, Error>): Store {
    if result.Success? then result.value else st
  }

  /** A failed operation changes nothing. */
  ghost function Next(st: Store, e: Event, now: int): Store
    requires Enabled(st, e, now)
  {
    match e
    case SubmitRequest(sub, ids) => Submit(st, sub, ids, now)
    case CreateManualJob(id, owner, scope, newJob, primary) =>
      Resulting(st, CreateJob(st, id, owner, scope, newJob, primary, now))
    case MoveJobTo(j, state, changes, newJob, primary) =>
      Resulting(st, Transition(st, j, state, changes, newJob, primary, now))
    case ClaimJob(j, worker, seconds) => st.(jobs := st.jobs[j := Claimed(st.jobs[j], worker, now, seconds)])
    case RenewLease(j, worker, seconds) => st.(jobs := st.jobs[j := Renewed(st.jobs[j], now, seconds)])
    case FanOutJob(p, videos, jobIds) => st.(jobs := EnqueueVideoJobs(st.jobs, p, st.jobs[p], videos, jobIds, now))
    case DispatchDue(t, newJob, primary) => DispatchPin(st, t, newJob, primary, now)
    case PinTarget(t, enabled, interval) => SetPin(st, t, enabled, interval, now)
    case PromoteTarget(source, channelId, handle) => Promote(st, source, channelId, handle, now)
    case NewLegacySource(id, kind, config, owner) => CreateSource(st, id, kind, config, owner, now)
    case EditSource(id, owner, enabled, config) => Resulting(st, UpdateSource(st, id, owner, enabled, config, now))
    case RemoveSourceById(id, owner) => Resulting(st, DeleteSource(st, id, owner, now))
    case LinkSourceVideo(source, video) => LinkVideo(st, source, video, now)
    case SubscribeTo(user, t, subscription) =>
      if t in st.targets then EnsureSubscription(st, user, t, subscription, now) else st
  }

  /** A claim and a renewal in a run hand the job to their worker until the deadline. */
  lemma LeaseEventsTakeEffect(st: Store, e: Event, now: int, time: int)
    requires Enabled(st, e, now) && (e.ClaimJob? || e.RenewLease?)
    ensures var after := Next(st, e, now);
            && e.job in after.jobs && Renewable(after.jobs[e.job], e.worker)
            && (Claimable(after.jobs[e.job], time) <==> time - now >= e.seconds)
            && after == st.(jobs := after.jobs) && after.jobs - {e.job} == st.jobs - {e.job}
  {
    if e.ClaimJob? {
      ClaimedIsHeld(st.jobs[e.job], e.worker, now, e.seconds, e.worker, time);
    } else {
      RenewedIsHeld(st.jobs[e.job], e.worker, now, e.seconds, time);
    }
  }

  // ---- one step ------------------------------------------------------------------------------

  lemma MovingKeeps(st: Store, j: Id, state: JobState, changes: Changes, newJob: Id, primary: Option<Id>, now: int)
    requires Inv(st) && newJob !in st.jobs && (j in st.jobs ==> PrimaryFor(st, st.jobs[j].target, primary))
    ensures Inv(Resulting(st, Transition(st, j, state, changes, newJob, primary, now)))
  {
    if Transition(st, j, state, changes, newJob, primary, now).Success? {
      TransitionKeeps(st, j, state, changes, newJob, primary, now);
      TransitionKeepsSourced(st, j, state, changes, newJob, primary, now);
    }
  }

  lemma NewLegacyKeeps(st: Store, id: Id, kind: SourceType, config: Config, owner: Option<Id>, now: int)
    requires Inv(st) && id !in st.sources
    ensures Inv(CreateSource(st, id, kind, config, owner, now))
  {
    NewSourceKeepsCore(st, id, Source(kind, config, None, owner, now));
    NewSourceKeepsSources(st.targets, st.sources, st.jobs, id, Source(kind, config, None, owner, now));
  }

  lemma CreatingKeeps(st: Store, id: Id, owner: Option<Id>, scope: Scope, newJob: Id, primary: Option<Id>, now: int)
    requires Inv(st) && newJob !in st.jobs
    ensures Inv(Resulting(st, CreateJob(st, id, owner, scope, newJob, primary, now)))
  {
    if CreateJob(st, id, owner, scope, newJob, primary, now).Success? {
      CreateJobKeeps(st, id, owner, scope, newJob, primary, now);
    }
  }

  lemma EditingKeeps(st: Store, id: Id, owner: Option<Id>, enabled: Option<bool>, config: Option<Config>, now: int)
    requires Inv(st)
    ensures Inv(Resulting(st, UpdateSource(st, id, owner, enabled, config, now)))
  {
    if UpdateSource(st, id, owner, enabled, config, now).Success? {
      UpdateSourceKeeps(st, id, owner, enabled, config, now);
    }
  }

  lemma RemovingKeeps(st: Store, id: Id, owner: Option<Id>, now: int)
    requires Inv(st) && Enabled(st, RemoveSourceById(id, owner), now)
    ensures Inv(Resulting(st, DeleteSource(st, id, owner, now)))
  {
    if DeleteSource(st, id, owner, now).Success? {
      DeleteSourceKeeps(st, id, owner, now);
    }
  }

  lemma SetPinKeeps(st: Store, t: Id, enabled: bool, interval: nat, now: int)
    requires Inv(st) && t in st.targets
    ensures Inv(SetPin(st, t, enabled, interval, now))
  {
    PinChangeKeeps(st, t, SetPin(st, t, enabled, interval, now).pins[t]);
  }

  lemma SubmittingKeeps(st: Store, sub: Submission, ids: Choices, now: int)
    requires Inv(st) && FreshChoices(st, sub, ids)
    ensures Inv(Submit(st, sub, ids, now))
  {
    SubmitKeeps(st, sub, ids, now);
    SubmitKeepsSourced(st, sub, ids, now);
  }

  lemma SubscribingKeeps(st: Store, user: Id, t: Id, newId: Id, now: int)
    requires Inv(st) && newId !in st.subscriptions
    ensures Inv(if t in st.targets then EnsureSubscription(st, user, t, newId, now) else st)
  {
    if t in st.targets {
      EnsureSubscriptionKeeps(st, user, t, newId, now);
    }
  }

  predicate MovesJobs(e: Event) {
    e.CreateManualJob? || e.MoveJobTo? || e.ClaimJob? || e.RenewLease? || e.FanOutJob? || e.DispatchDue?
  }

  lemma JobStepKeeps(st: Store, e: Event, now: int)
    requires Inv(st) && Enabled(st, e, now) && MovesJobs(e)
    ensures Inv(Next(st, e, now))
  {
    match e
    case CreateManualJob(id, owner, scope, newJob, primary) => CreatingKeeps(st, id, owner, scope, newJob, primary, now);
    case MoveJobTo(j, state, changes, newJob, primary) => MovingKeeps(st, j, state, changes, newJob, primary, now);
    case ClaimJob(j, worker, seconds) => ClaimKeeps(st, j, worker, now, seconds);
    case RenewLease(j, worker, seconds) => RenewKeeps(st, j, worker, now, seconds);
    case FanOutJob(p, videos, jobIds) => EnqueueKeeps(st, p, videos, jobIds, now);
    case DispatchDue(t, newJob, primary) => DispatchKeeps(st, t, newJob, primary, now);
  }

  lemma TableStepKeeps(st: Store, e: Event, now: int)
    requires Inv(st) && Enabled(st, e, now) && !MovesJobs(e)
    ensures Inv(Next(st, e, now))
  {
    match e
    case SubmitRequest(sub, ids) => SubmittingKeeps(st, sub, ids, now);
    case PinTarget(t, enabled, interval) => SetPinKeeps(st, t, enabled, interval, now);
    case PromoteTarget(source, channelId, handle) => PromoteKeeps(st, source, channelId, handle, now);
    case NewLegacySource(id, kind, config, owner) => NewLegacyKeeps(st, id, kind, config, owner, now);
    case EditSource(id, owner, enabled, config) => EditingKeeps(st, id, owner, enabled, config, now);
    case RemoveSourceById(id, owner) => RemovingKeeps(st, id, owner, now);
    case LinkSourceVideo(source, video) => LinkVideoKeeps(st, source, video, now);
    case SubscribeTo(user, t, subscription) => SubscribingKeeps(st, user, t, subscription, now);
  }

  /** Every operation keeps the store well formed. */
  lemma StepKeeps(st: Store, e: Event, now: int)
    requires Inv(st) && Enabled(st, e, now)
    ensures Inv(Next(st, e, now))
  {
    if MovesJobs(e) {
      JobStepKeeps(st, e, now);
    } else {
      TableStepKeeps(st, e, now);
    }
  }

  // ---- one step, and coverage ---------------------------------------------------------------------

  /** Requests stay within the published contract, and nobody rewrites a worker source behind its target. */
  ghost predicate WithinContract(st: Store, e: Event) {
    match e
    case SubmitRequest(sub, _) => Limited(sub.kind, sub.config)
    case EditSource(id, owner, _, newConfig) =>
      id in st.sources && st.sources[id].target.Some? && !OwnSubscription(st, id, owner) ==> newConfig.None?
    case _ => true
  }

  lemma JobsOnlyCover(st: Store, jobs: JobMap)
    requires Core(st) && CoverInv(st) && SameScopes(st.jobs, jobs)
    ensures CoverInv(st.(jobs := jobs))
  {
    CoreIsLinked(st);
    JobsUntouchedKeep(st.sources, st.requests, st.jobs, jobs);
  }

  lemma EditingCovers(st: Store, id: Id, owner: Option<Id>, enabled: Option<bool>, config: Option<Config>, now: int)
    requires CoverInv(st) && WithinContract(st, EditSource(id, owner, enabled, config))
    ensures CoverInv(Resulting(st, UpdateSource(st, id, owner, enabled, config, now)))
  {
    if !OwnSubscription(st, id, owner) && id !in st.subscriptions && OwnSource(st, id, owner) {
      BackedUntouchedKeep(st, st.sources[id := st.sources[id].(config := config.GetOr(st.sources[id].config))]);
    }
  }

  lemma UnsubscribingCovers(st: Store, id: Id, now: int)
    requires CoverInv(st) && id in st.subscriptions
    ensures CoverInv(DeleteSubscription(st, id, now))
  {
    RequestsUntouchedKeep(st, UnsubscribedAll(st.requests, id));
  }

  lemma LegacyRemovalCovers(st: Store, id: Id)
    requires Core(st) && CoverInv(st) && id in st.sources && st.sources[id].target.None?
    ensures CoverInv(RemoveSource(st, id))
  {
    BackedUntouchedKeep(st, st.sources - {id});
    CoreIsLinked(st);
    var fewer := RemoveSource(st, id);
    JobsUntouchedKeep(fewer.sources, st.requests, st.jobs, fewer.jobs);
  }

  lemma RemovingCovers(st: Store, id: Id, owner: Option<Id>, now: int)
    requires Core(st) && CoverInv(st)
    ensures CoverInv(Resulting(st, DeleteSource(st, id, owner, now)))
  {
    if DeleteSource(st, id, owner, now).Success? {
      if OwnSubscription(st, id, owner) {
        UnsubscribingCovers(st, id, now);
      } else if st.sources[id].target.None? {
        LegacyRemovalCovers(st, id);
      } else {
        RemoveTargetCovers(st, st.sources[id].target.value);
      }
    }
  }

  lemma MovingCovers(st: Store, j: Id, state: JobState, changes: Changes, newJob: Id, primary: Option<Id>, now: int)
    requires Inv(st) && CoverInv(st) && newJob !in st.jobs && (j in st.jobs ==> PrimaryFor(st, st.jobs[j].target, primary))
    ensures CoverInv(Resulting(st, Transition(st, j, state, changes, newJob, primary, now)))
  {
    if Transition(st, j, state, changes, newJob, primary, now).Success? {
      TransitionCovers(st, j, state, changes, newJob, primary, now);
    }
  }

  lemma CreatingCovers(st: Store, id: Id, owner: Option<Id>, scope: Scope, newJob: Id, primary: Option<Id>, now: int)
    requires Core(st) && CoverInv(st) && newJob !in st.jobs
    ensures CoverInv(Resulting(st, CreateJob(st, id, owner, scope, newJob, primary, now)))
  {
    CreationFrame(st, id, owner, scope, newJob, primary, now);
    JobsOnlyCover(st, Resulting(st, CreateJob(st, id, owner, scope, newJob, primary, now)).jobs);
  }

  lemma CreationFrame(st: Store, id: Id, owner: Option<Id>, scope: Scope, newJob: Id, primary: Option<Id>, now: int)
    requires newJob !in st.jobs
    ensures var after := Resulting(st, CreateJob(st, id, owner, scope, newJob, primary, now));
            after == st.(jobs := after.jobs) && SameScopes(st.jobs, after.jobs)
  {
  }

  lemma DispatchFrame(st: Store, t: Id, dispatch: Dispatch, newJob: Id, now: int)
    requires t in st.pins && newJob !in st.jobs
    ensures var after := Dispatched(st, t, dispatch, newJob, now);
            && after.targets == st.targets && after.sources == st.sources && after.requests == st.requests
            && SameScopes(st.jobs, after.jobs)
  {
  }

  lemma DispatchCovers(st: Store, t: Id, newJob: Id, primary: Option<Id>, now: int)
    requires Core(st) && CoverInv(st) && t in st.pins && newJob !in st.jobs
    ensures CoverInv(DispatchPin(st, t, newJob, primary, now))
  {
    DispatchFrame(st, t, DispatchFor(st, t, primary), newJob, now);
    JobsOnlyCover(st, DispatchPin(st, t, newJob, primary, now).jobs);
  }

  lemma FanOutCovers(st: Store, p: Id, videos: seq<string>, jobIds: seq<Id>, now: int)
    requires Core(st) && CoverInv(st) && p in st.jobs && |jobIds| == |videos| && UnusedIds(st.jobs, jobIds)
    ensures CoverInv(st.(jobs := EnqueueVideoJobs(st.jobs, p, st.jobs[p], videos, jobIds, now)))
  {
    EnqueueOnlyAdds(st.jobs, p, st.jobs[p], videos, jobIds, now);
    JobsOnlyCover(st, EnqueueVideoJobs(st.jobs, p, st.jobs[p], videos, jobIds, now));
  }

  lemma ClaimCovers(st: Store, j: Id, job: Job)
    requires Core(st) && CoverInv(st) && j in st.jobs && job.scope == st.jobs[j].scope && job.target == st.jobs[j].target
    ensures CoverInv(st.(jobs := st.jobs[j := job]))
  {
    JobsOnlyCover(st, st.jobs[j := job]);
  }

  /** Operations that change jobs and nothing else. */
  predicate ChangesJobsOnly(e: Event) {
    e.CreateManualJob? || e.ClaimJob? || e.RenewLease? || e.FanOutJob?
  }

  lemma JobsOnlyStepCovers(st: Store, e: Event, now: int)
    requires Inv(st) && CoverInv(st) && Enabled(st, e, now) && ChangesJobsOnly(e)
    ensures CoverInv(Next(st, e, now))
  {
    match e
    case CreateManualJob(id, owner, scope, newJob, primary) => CreatingCovers(st, id, owner, scope, newJob, primary, now);
    case ClaimJob(j, worker, seconds) => ClaimCovers(st, j, Claimed(st.jobs[j], worker, now, seconds));
    case RenewLease(j, worker, seconds) => ClaimCovers(st, j, Renewed(st.jobs[j], now, seconds));
    case FanOutJob(p, videos, jobIds) => FanOutCovers(st, p, videos, jobIds, now);
  }

  lemma JobStepCovers(st: Store, e: Event, now: int)
    requires Inv(st) && CoverInv(st) && Enabled(st, e, now) && (e.MoveJobTo? || e.DispatchDue?)
    ensures CoverInv(Next(st, e, now))
  {
    match e
    case MoveJobTo(j, state, changes, newJob, primary) => MovingCovers(st, j, state, changes, newJob, primary, now);
    case DispatchDue(t, newJob, primary) => DispatchCovers(st, t, newJob, primary, now);
  }

  /** Operations that leave targets, sources, requests and jobs alone. */
  predicate StaysAside(e: Event) {
    e.PinTarget? || e.LinkSourceVideo? || e.SubscribeTo?
  }

  lemma SubscribingCovers(st: Store, user: Id, t: Id, newId: Id, now: int)
    requires CoverInv(st)
    ensures CoverInv(if t in st.targets then EnsureSubscription(st, user, t, newId, now) else st)
  {
  }

  lemma AsideStepCovers(st: Store, e: Event, now: int)
    requires CoverInv(st) && Enabled(st, e, now) && StaysAside(e)
    ensures CoverInv(Next(st, e, now))
  {
    match e
    case PinTarget(t, enabled, interval) =>
    case LinkSourceVideo(source, video) =>
    case SubscribeTo(user, t, subscription) => SubscribingCovers(st, user, t, subscription, now);
  }

  lemma TableStepCovers(st: Store, e: Event, now: int)
    requires Inv(st) && CoverInv(st) && Enabled(st, e, now) && WithinContract(st, e) && !MovesJobs(e) && !StaysAside(e)
    ensures CoverInv(Next(st, e, now))
  {
    match e
    case SubmitRequest(sub, ids) => SubmitCovers(st, sub, ids, now);
    case PromoteTarget(source, channelId, handle) => PromoteCovers(st, source, channelId, handle, now);
    case NewLegacySource(id, kind, config, owner) =>
      BackedUntouchedKeep(st, st.sources[id := Source(kind, config, None, owner, now)]);
    case EditSource(id, owner, enabled, config) => EditingCovers(st, id, owner, enabled, config, now);
    case RemoveSourceById(id, owner) => RemovingCovers(st, id, owner, now);
  }

  /** Every operation within the contract keeps each job covering the requests attached to it. */
  lemma StepCovers(st: Store, e: Event, now: int)
    requires Inv(st) && CoverInv(st) && Enabled(st, e, now) && WithinContract(st, e)
    ensures CoverInv(Next(st, e, now))
  {
    if ChangesJobsOnly(e) {
      JobsOnlyStepCovers(st, e, now);
    } else if MovesJobs(e) {
      JobStepCovers(st, e, now);
    } else if StaysAside(e) {
      AsideStepCovers(st, e, now);
    } else {
      TableStepCovers(st, e, now);
    }
  }

  // ---- every run -------------------------------------------------------------------------------

  /** One operation and the time it happens at. */
  datatype Step = Step(event: Event, now: int)

  ghost predicate IsRun(st: Store, steps: seq<Step>)
    decreases |steps|
  {
    steps == [] || (Enabled(st, steps[0].event, steps[0].now) && IsRun(Next(st, steps[0].event, steps[0].now), steps[1..]))
  }

  ghost function Exec(st: Store, steps: seq<Step>): Store
    requires IsRun(st, steps)
    decreases |steps|
  {
    if steps == [] then st else Exec(Next(st, steps[0].event, steps[0].now), steps[1..])
  }

  lemma {:induction false} RunAppends(st: Store, steps: seq<Step>, step: Step)
    requires IsRun(st, steps) && Enabled(Exec(st, steps), step.event, step.now)
    ensures IsRun(st, steps + [step]) && Exec(st, steps + [step]) == Next(Exec(st, steps), step.event, step.now)
    decreases |steps|
  {
    if steps == [] {
      assert [step][1..] == [];
    } else {
      assert (steps + [step])[1..] == steps[1..] + [step];
      RunAppends(Next(st, steps[0].event, steps[0].now), steps[1..], step);
    }
  }

  /** The steps can be taken from `before`, one after the other, and lead to `after`. */
  ghost predicate RunsTo(before: Store, steps: seq<Step>, after: Store) {
    IsRun(before, steps) && Exec(before, steps) == after
  }

  /** A run of dispatches, of the given pins in the given order. */
  ghost predicate AllDispatches(steps: seq<Step>, order: seq<Id>, now: int) {
    && |order| == |steps|
    && forall i :: 0 <= i < |steps| ==>
         steps[i].event.DispatchDue? && steps[i].event.target == order[i] && steps[i].now == now
  }

  lemma DispatchAppends(before: Store, steps: seq<Step>, order: seq<Id>, st: Store, t: Id, newJob: Id, primary: Option<Id>,
                        now: int)
    requires RunsTo(before, steps, st) && AllDispatches(steps, order, now)
    requires t in st.pins && st.pins[t].enabled && st.pins[t].nextRun <= now && newJob !in st.jobs && IsPrimary(st, t, primary)
    ensures var longer := steps + [Step(DispatchDue(t, newJob, primary), now)];
            RunsTo(before, longer, DispatchPin(st, t, newJob, primary, now)) && AllDispatches(longer, order + [t], now)
  {
    RunAppends(before, steps, Step(DispatchDue(t, newJob, primary), now));
  }

  lemma EmptyIsWellFormed()
    ensures Inv(EMPTY) && CoverInv(EMPTY)
  {
  }

  /** Every reachable store is well formed: no table names a record that is not there, indexes match
      their tables one to one, and every target has a worker source. */
  lemma {:induction false} EveryRunKeepsTheStoreWellFormed(st: Store, steps: seq<Step>)
    requires Inv(st) && IsRun(st, steps)
    ensures Inv(Exec(st, steps))
    decreases |steps|
  {
    if steps != [] {
      StepKeeps(st, steps[0].event, steps[0].now);
      EveryRunKeepsTheStoreWellFormed(Next(st, steps[0].event, steps[0].now), steps[1..]);
    }
  }

  /** In every reachable store a target has at most one unfinished job. */
  lemma AtMostOneUnfinishedJob(steps: seq<Step>, a: Id, b: Id, t: Id)
    requires IsRun(EMPTY, steps)
    requires IsActive(Exec(EMPTY, steps).jobs, a, t) && IsActive(Exec(EMPTY, steps).jobs, b, t)
    ensures a == b
  {
    EmptyIsWellFormed();
    EveryRunKeepsTheStoreWellFormed(EMPTY, steps);
  }

  /** In every reachable store a request that waits without a job has an unfinished job to wait for. */
  lemma NobodyIsStranded(steps: seq<Step>, r: Id)
    requires IsRun(EMPTY, steps) && r in Exec(EMPTY, steps).requests && Pending(Exec(EMPTY, steps).requests[r])
    ensures HasActive(Exec(EMPTY, steps).jobs, Exec(EMPTY, steps).requests[r].target)
  {
    EmptyIsWellFormed();
    EveryRunKeepsTheStoreWellFormed(EMPTY, steps);
  }

  /** In every reachable store an idempotency key names one request of its user and target, and a
      replay of it changes nothing and can always be answered. */
  lemma ReplaysAreAlwaysHarmless(steps: seq<Step>, sub: Submission, ids: Choices, now: int, r: Id)
    requires IsRun(EMPTY, steps)
    requires IsReplay(Exec(EMPTY, steps), r, sub, TargetFor(Exec(EMPTY, steps), sub, ids.target))
    ensures Submit(Exec(EMPTY, steps), sub, ids, now) == Exec(EMPTY, steps)
    ensures AnswerSource(Exec(EMPTY, steps), Exec(EMPTY, steps).requests[r]).Success?
    ensures forall other ::
              IsReplay(Exec(EMPTY, steps), other, sub, TargetFor(Exec(EMPTY, steps), sub, ids.target)) ==> other == r
  {
    EmptyIsWellFormed();
    EveryRunKeepsTheStoreWellFormed(EMPTY, steps);
    ReplayIsHarmless(Exec(EMPTY, steps), sub, ids, now, r);
  }

  ghost predicate RunWithinContract(st: Store, steps: seq<Step>)
    requires IsRun(st, steps)
    decreases |steps|
  {
    steps == [] || (WithinContract(st, steps[0].event)
                    && RunWithinContract(Next(st, steps[0].event, steps[0].now), steps[1..]))
  }

  lemma {:induction false} EveryRunKeepsCovering(st: Store, steps: seq<Step>)
    requires Inv(st) && CoverInv(st) && IsRun(st, steps) && RunWithinContract(st, steps)
    ensures CoverInv(Exec(st, steps))
    decreases |steps|
  {
    if steps != [] {
      StepKeeps(st, steps[0].event, steps[0].now);
      StepCovers(st, steps[0].event, steps[0].now);
      EveryRunKeepsCovering(Next(st, steps[0].event, steps[0].now), steps[1..]);
    }
  }

  /** In every run within the contract: when a running job of a target with one worker source
      completes, the record made then is complete, includes all the work that any request attached to
      the job asks for, and nothing that the job did not do. */
  lemma CompletionCoversItsRequests(steps: seq<Step>, j: Id, changes: Changes, newJob: Id, primary: Option<Id>, now: int,
                                    t: Id, s: Id, r: Id)
    requires IsRun(EMPTY, steps) && RunWithinContract(EMPTY, steps)
    requires var st := Exec(EMPTY, steps);
             && j in st.jobs && newJob !in st.jobs && st.jobs[j].target == Some(t) && st.jobs[j].state == RUNNING
             && Sole(st.sources, s, t) && r in st.requests && st.requests[r].target == t && st.requests[r].job == Some(j)
    ensures var st := Exec(EMPTY, steps);
            var ended := Transition(st, j, COMPLETED, changes, newJob, primary, now);
            && ended.Success? && t in ended.value.targets && t in st.targets
            && Collected(ended.value.targets[t].coverage, st.targets[t].kind, st.requests[r].config)
            && RecordsWork(ended.value.targets[t].coverage, st.jobs[j].scope, st.sources[s])
  {
    EmptyIsWellFormed();
    EveryRunKeepsTheStoreWellFormed(EMPTY, steps);
    EveryRunKeepsCovering(EMPTY, steps);
    CompletionRecordsWork(Exec(EMPTY, steps), j, changes, newJob, primary, now, t, s, r);
  }
}
