/** Creating, moving and ending jobs of a target:
    apps/api/monitube_api/infrastructure/memory_jobs.py, with the guards of postgres_jobs.py */
module Lifecycle {
  import opened Common
  import opened CollectionPolicy
  import opened Jobs
  import opened Store
  import opened Sources

  // ---- creating ------------------------------------------------------------------------

  function TargetJob(st: Store, t: Id, s: Id, now: int): Job
    requires s in st.sources
  {
    Job(s, QUEUED, ScopeOf(st.sources[s].kind, st.sources[s].config), map[], None, None, None, now, Some(t), None)
  }

  /** A new job of a target: queued, free to be claimed, unstarted, and with the work its source asks for. */
  lemma TargetJobIsNew(st: Store, t: Id, s: Id, now: int, w: Work)
    requires s in st.sources
    ensures var job := TargetJob(st, t, s, now);
            && job == Job(s, QUEUED, job.scope, map[], None, None, None, now, Some(t), None)
            && Claimable(job, now)
            && (DoneBy(job.scope, st.sources[s].kind, st.sources[s].config, w) <==>
                Asks(st.sources[s].kind, st.sources[s].config, w))
  {
    ScopeCoversConfig(st.sources[s].kind, st.sources[s].config);
    JobCoverageIsDone(TargetJob(st, t, s, now).scope, st.sources[s].kind, st.sources[s].config, w);
    DesiredIsAsked(st.sources[s].kind, st.sources[s].config, w);
  }

  /** The worker source behind a public source id. */
  ghost function WorkerSource(st: Store, id: Id, owner: Option<Id>, primary: Option<Id>): Result<Id, Error> {
    if OwnSubscription(st, id, owner) then (if primary.Some? then Success(primary.value) else Failure(NoWorkerSource))
    else if OwnSource(st, id, owner) then Success(id)
    else Failure(NotFound)
  }

  function AddJob(st: Store, worker: Id, scope: Scope, newJob: Id, now: int): Store
    requires worker in st.sources
  {
    st.(jobs := st.jobs[newJob := Job(worker, QUEUED, scope, map[], None, None, None, now, st.sources[worker].target, None)])
  }

  /** A job for the source, unless its target already has an unfinished one. */
  ghost function CreateJob(st: Store, id: Id, owner: Option<Id>, scope: Scope, newJob: Id, primary: Option<Id>, now: int)
    : Result<Store, Error>
  {
    var worker := WorkerSource(st, id, owner, primary);
    if worker.Failure? then Failure(worker.error)
    else if worker.value !in st.sources then Failure(NotFound)
    else if TargetBusyFor(st, worker.value) then Success(st)
    else Success(AddJob(st, worker.value, scope, newJob, now))
  }

  ghost predicate TargetBusyFor(st: Store, worker: Id)
    requires worker in st.sources
  {
    st.sources[worker].target.Some? && HasActive(st.jobs, st.sources[worker].target.value)
  }

  lemma AddJobKeeps(st: Store, worker: Id, scope: Scope, newJob: Id, now: int)
    requires Inv(st) && newJob !in st.jobs && worker in st.sources && !TargetBusyFor(st, worker)
    ensures Inv(AddJob(st, worker, scope, newJob, now))
  {
    NewJobKeepsCore(st, newJob, Job(worker, QUEUED, scope, map[], None, None, None, now, st.sources[worker].target, None));
  }

  /** A job is refused for an id the caller may not use, and for a subscription whose target has no worker
      source; otherwise the target keeps its unfinished job, or the worker source gets a new one. */
  lemma CreateJobAnswers(st: Store, id: Id, owner: Option<Id>, scope: Scope, newJob: Id, primary: Option<Id>, now: int)
    requires primary.Some? ==> primary.value in st.sources
    ensures var result, own := CreateJob(st, id, owner, scope, newJob, primary, now), OwnSubscription(st, id, owner);
            && (result == Failure(NotFound) <==> !own && !OwnSource(st, id, owner))
            && (result == Failure(NoWorkerSource) <==> own && primary.None?)
            && (result.Failure? ==> result.error in {NotFound, NoWorkerSource})
            && (result.Success? ==>
                  var worker := if own then primary.value else id;
                  var target := st.sources[worker].target;
                  if target.Some? && HasActive(st.jobs, target.value) then result.value == st
                  else result.value == st.(jobs := st.jobs[newJob :=
                         Job(worker, QUEUED, scope, map[], None, None, None, now, target, None)]))
  {
  }

  lemma CreateJobKeeps(st: Store, id: Id, owner: Option<Id>, scope: Scope, newJob: Id, primary: Option<Id>, now: int)
    requires Inv(st) && newJob !in st.jobs
    requires CreateJob(st, id, owner, scope, newJob, primary, now).Success?
    ensures Inv(CreateJob(st, id, owner, scope, newJob, primary, now).value)
  {
    var worker := WorkerSource(st, id, owner, primary).value;
    if !TargetBusyFor(st, worker) {
      AddJobKeeps(st, worker, scope, newJob, now);
    }
  }

  // ---- claims, renewals, children: nothing but the jobs changes ----------------------------

  lemma ClaimKeeps(st: Store, j: Id, worker: Id, now: int, seconds: int)
    requires Inv(st) && j in st.jobs && Claimable(st.jobs[j], now)
    ensures Inv(st.(jobs := st.jobs[j := Claimed(st.jobs[j], worker, now, seconds)]))
  {
    ReshapingKeepsCore(st, st.jobs[j := Claimed(st.jobs[j], worker, now, seconds)]);
  }

  lemma RenewKeeps(st: Store, j: Id, worker: Id, now: int, seconds: int)
    requires Inv(st) && j in st.jobs && Renewable(st.jobs[j], worker)
    ensures Inv(st.(jobs := st.jobs[j := Renewed(st.jobs[j], now, seconds)]))
  {
    ReshapingKeepsCore(st, st.jobs[j := Renewed(st.jobs[j], now, seconds)]);
  }

  lemma UntargetedKeepActive(jobs: JobMap, after: JobMap)
    requires forall j :: j in jobs ==> j in after && after[j] == jobs[j]
    requires forall j :: j in after && j !in jobs ==> after[j].target.None?
    ensures forall t :: HasActive(after, t) <==> HasActive(jobs, t)
    ensures OneActive(jobs) ==> OneActive(after)
  {
    forall j, t ensures IsActive(after, j, t) <==> IsActive(jobs, j, t) {
    }
    forall t ensures HasActive(after, t) <==> HasActive(jobs, t) {
      if HasActive(jobs, t) {
        var j :| IsActive(jobs, j, t);
        assert IsActive(after, j, t);
      }
    }
  }

  ghost predicate AddsUntargeted(sources: map<Id, Source>, jobs: JobMap, after: JobMap) {
    && (forall j :: j in jobs ==> j in after && after[j] == jobs[j])
    && (forall j :: j in after && j !in jobs ==> after[j].target.None? && after[j].source in sources)
  }

  lemma UntargetedKeepCore(st: Store, after: JobMap)
    requires Core(st) && AddsUntargeted(st.sources, st.jobs, after)
    ensures Core(st.(jobs := after))
  {
    UntargetedKeepActive(st.jobs, after);
    JobsKeepRequests(st.targets, st.sources, st.subscriptions, st.jobs, after, st.requests);
  }

  lemma EnqueueKeeps(st: Store, p: Id, videos: seq<string>, ids: seq<Id>, now: int)
    requires Inv(st) && p in st.jobs && |ids| == |videos| && UnusedIds(st.jobs, ids)
    ensures Inv(st.(jobs := EnqueueVideoJobs(st.jobs, p, st.jobs[p], videos, ids, now)))
  {
    EnqueueOnlyAdds(st.jobs, p, st.jobs[p], videos, ids, now);
    UntargetedKeepCore(st, EnqueueVideoJobs(st.jobs, p, st.jobs[p], videos, ids, now));
  }

  // ---- ending a job ----------------------------------------------------------------------

  /** The requests attached to a job end with it. */
  function Settled(requests: map<Id, Request>, j: Id, state: JobState): map<Id, Request> {
    map r | r in requests :: if requests[r].job == Some(j) then requests[r].(status := Ended(state)) else requests[r]
  }

  /** The requests that waited for the target get the new job. */
  function Attached(requests: map<Id, Request>, t: Id, j: Id): map<Id, Request> {
    map r | r in requests :: if Waits(requests[r], t) then requests[r].(job := Some(j)) else requests[r]
  }

  predicate Waits(r: Request, t: Id) {
    Pending(r) && r.target == t
  }

  ghost predicate SomeWait(requests: map<Id, Request>, t: Id) {
    exists r :: r in requests && Waits(requests[r], t)
  }

  /** What the job covered, recorded on its target. */
  function Recorded(st: Store, job: Job, t: Id): map<Id, Target> {
    if job.state != COMPLETED || t !in st.targets || job.source !in st.sources then st.targets
    else
      var source := st.sources[job.source];
      st.targets[t := st.targets[t].(coverage := Completed(JobCoverage(job.scope, source.kind, source.config)))]
  }

  ghost function StartSuccessor(st: Store, t: Id, newJob: Id, primary: Option<Id>, now: int): Store {
    if SomeWait(st.requests, t) && primary.Some? && primary.value in st.sources then
      st.(jobs := st.jobs[newJob := TargetJob(st, t, primary.value, now)], requests := Attached(st.requests, t, newJob))
    else st
  }

  /** Everything that follows a job's last move, in one transaction. */
  ghost function EndJob(st: Store, job: Job, newJob: Id, primary: Option<Id>, now: int): Store {
    if job.target.None? || job.target.value !in st.targets then st
    else StartSuccessor(st.(targets := Recorded(st, job, job.target.value)), job.target.value, newJob, primary, now)
  }

  function MoveJob(st: Store, j: Id, state: JobState, changes: Changes): Store
    requires j in st.jobs
  {
    st.(jobs := st.jobs[j := Moved(st.jobs[j], state, changes)])
  }

  /** The job has moved, and the requests attached to it ended with it. */
  function SettledStore(st: Store, j: Id, state: JobState, changes: Changes): Store
    requires j in st.jobs
  {
    st.(jobs := st.jobs[j := Moved(st.jobs[j], state, changes)], requests := Settled(st.requests, j, state))
  }

  /** A finished job that is queued again must not meet another unfinished job of its target. */
  ghost predicate Revives(st: Store, j: Id, state: JobState)
    requires j in st.jobs
  {
    IsTerminal(st.jobs[j].state) && !IsTerminal(state) && st.jobs[j].target.Some?
  }

  ghost function Transition(st: Store, j: Id, state: JobState, changes: Changes, newJob: Id, primary: Option<Id>, now: int)
    : Result<Store, Error>
  {
    if j !in st.jobs then Failure(NotFound)
    else if !CanMove(st.jobs[j].state, state) then Failure(InvalidTransition)
    else if Revives(st, j, state) && HasActive(st.jobs, st.jobs[j].target.value) then Failure(TargetBusy)
    else
      // Only the move that ends the job has consequences.
      if IsTerminal(state) && !IsTerminal(st.jobs[j].state) then
        Success(EndJob(SettledStore(st, j, state, changes), Moved(st.jobs[j], state, changes), newJob, primary, now))
      else Success(MoveJob(st, j, state, changes))
  }

  /** A move is refused for an unknown job, for a step the state machine does not have, and for a finished
      job that would meet another unfinished one; one that ends no job changes that job and no more. */
  lemma TransitionAnswers(st: Store, j: Id, state: JobState, changes: Changes, newJob: Id, primary: Option<Id>, now: int)
    ensures var result := Transition(st, j, state, changes, newJob, primary, now);
            && (result == Failure(NotFound) <==> j !in st.jobs)
            && (result == Failure(InvalidTransition) <==> j in st.jobs && !CanMove(st.jobs[j].state, state))
            && (result == Failure(TargetBusy) <==>
                  && j in st.jobs && CanMove(st.jobs[j].state, state)
                  && IsTerminal(st.jobs[j].state) && !IsTerminal(state)
                  && st.jobs[j].target.Some? && HasActive(st.jobs, st.jobs[j].target.value))
            && (result.Failure? ==> result.error in {NotFound, InvalidTransition, TargetBusy})
            && (result.Success? && (IsTerminal(st.jobs[j].state) || !IsTerminal(state)) ==>
                  result.value == st.(jobs := st.jobs[j := Moved(st.jobs[j], state, changes)]))
  {
  }

  // ---- what ending a job keeps -------------------------------------------------------------

  lemma SettledKeeps(st: Store, j: Id, state: JobState)
    requires RequestsOk(st.targets, st.sources, st.subscriptions, st.jobs, st.requests) && ActionsOnce(st.requests)
    ensures RequestsOk(st.targets, st.sources, st.subscriptions, st.jobs, Settled(st.requests, j, state))
    ensures ActionsOnce(Settled(st.requests, j, state))
    ensures forall r :: r in st.requests ==> Pending(Settled(st.requests, j, state)[r]) == Pending(st.requests[r])
  {
    var after := Settled(st.requests, j, state);
    forall r | r in after ensures RequestOk(st.targets, st.sources, st.subscriptions, st.jobs, after[r]) {
      assert RequestOk(st.targets, st.sources, st.subscriptions, st.jobs, st.requests[r]);
    }
    forall a, b | a in after && b in after && SameAction(after[a], after[b]) ensures a == b {
      assert SameAction(st.requests[a], st.requests[b]);
    }
  }

  lemma AttachedKeeps(targets: map<Id, Target>, sources: map<Id, Source>, subs: map<Id, Subscription>, jobs: JobMap,
                      requests: map<Id, Request>, t: Id, j: Id)
    requires RequestsOk(targets, sources, subs, jobs, requests) && ActionsOnce(requests)
    requires j in jobs && Backs(sources, jobs[j].source, t)
    ensures RequestsOk(targets, sources, subs, jobs, Attached(requests, t, j)) && ActionsOnce(Attached(requests, t, j))
    ensures !SomeWait(Attached(requests, t, j), t)
  {
    var after := Attached(requests, t, j);
    forall r | r in after ensures RequestOk(targets, sources, subs, jobs, after[r]) {
      assert RequestOk(targets, sources, subs, jobs, requests[r]);
    }
    forall a, b | a in after && b in after && SameAction(after[a], after[b]) ensures a == b {
      assert SameAction(requests[a], requests[b]);
    }
  }

  /** Only what a target is called and what kind it has matters to the other tables. */
  ghost predicate SameNames(targets: map<Id, Target>, after: map<Id, Target>) {
    targets.Keys == after.Keys && forall t :: t in targets ==> KeyOf(after[t]) == KeyOf(targets[t])
  }

  lemma RenamedTargetsKeepRequests(st: Store, targets: map<Id, Target>)
    requires RequestsOk(st.targets, st.sources, st.subscriptions, st.jobs, st.requests) && SameNames(st.targets, targets)
    ensures RequestsOk(targets, st.sources, st.subscriptions, st.jobs, st.requests)
  {
    forall r | r in st.requests ensures RequestOk(targets, st.sources, st.subscriptions, st.jobs, st.requests[r]) {
      assert RequestOk(st.targets, st.sources, st.subscriptions, st.jobs, st.requests[r]);
    }
  }

  lemma SameNamesKeepTables(st: Store, targets: map<Id, Target>)
    requires SameNames(st.targets, targets) && KeysOk(st.targets, st.keys) && AliasesOk(st.targets, st.aliases)
    requires SourcesOk(st.targets, st.sources) && SubscriptionsOk(st.targets, st.subscriptions, st.subscriptionIds)
    requires PinsOk(st.targets, st.pins) && VideosOk(st.targets, st.targetVideos, st.firstSeen)
    ensures KeysOk(targets, st.keys) && AliasesOk(targets, st.aliases) && SourcesOk(targets, st.sources)
    ensures SubscriptionsOk(targets, st.subscriptions, st.subscriptionIds) && PinsOk(targets, st.pins)
    ensures VideosOk(targets, st.targetVideos, st.firstSeen)
  {
  }

  lemma SameNamesKeepCore(st: Store, targets: map<Id, Target>)
    requires Core(st) && SameNames(st.targets, targets)
    ensures Core(st.(targets := targets))
    ensures Sourced(st.targets, st.sources) ==> Sourced(targets, st.sources)
  {
    SameNamesKeepTables(st, targets);
    RenamedTargetsKeepRequests(st, targets);
  }

  /** All waiting requests of a target go to one new job, and none is left waiting. */
  ghost predicate NoneStrandedBut(requests: map<Id, Request>, jobs: JobMap, t: Id) {
    forall r :: r in requests && Pending(requests[r]) && requests[r].target != t ==> HasActive(jobs, requests[r].target)
  }

  lemma SuccessorKeepsStranded(requests: map<Id, Request>, jobs: JobMap, t: Id, newJob: Id, job: Job)
    requires NoneStrandedBut(requests, jobs, t) && newJob !in jobs && OneActive(jobs)
    requires job.target == Some(t) && !IsTerminal(job.state) && !HasActive(jobs, t)
    ensures NoneStranded(Attached(requests, t, newJob), jobs[newJob := job])
    ensures OneActive(jobs[newJob := job])
  {
    NewJobKeepsActive(jobs, newJob, job);
    var after := Attached(requests, t, newJob);
    forall r | r in after && Pending(after[r]) ensures HasActive(jobs[newJob := job], after[r].target) {
      assert Pending(requests[r]);
    }
  }

  /** Everything Core asks for, except that requests of one target may wait for nothing. */
  ghost predicate CoreBut(st: Store, t: Id) {
    && KeysOk(st.targets, st.keys)
    && AliasesOk(st.targets, st.aliases)
    && SourcesOk(st.targets, st.sources)
    && SubscriptionsOk(st.targets, st.subscriptions, st.subscriptionIds)
    && JobsOk(st.sources, st.jobs)
    && RequestsOk(st.targets, st.sources, st.subscriptions, st.jobs, st.requests)
    && OneActive(st.jobs)
    && NoneStrandedBut(st.requests, st.jobs, t)
    && ActionsOnce(st.requests)
    && PinsOk(st.targets, st.pins)
    && VideosOk(st.targets, st.targetVideos, st.firstSeen)
  }

  lemma SuccessorKeeps(st: Store, t: Id, newJob: Id, primary: Option<Id>, now: int)
    requires CoreBut(st, t) && !HasActive(st.jobs, t) && newJob !in st.jobs
    requires primary.Some? && Backs(st.sources, primary.value, t)
    ensures Core(StartSuccessor(st, t, newJob, primary, now))
  {
    if SomeWait(st.requests, t) {
      var job := TargetJob(st, t, primary.value, now);
      var jobs := st.jobs[newJob := job];
      SuccessorKeepsStranded(st.requests, st.jobs, t, newJob, job);
      JobsKeepRequests(st.targets, st.sources, st.subscriptions, st.jobs, jobs, st.requests);
      AttachedKeeps(st.targets, st.sources, st.subscriptions, jobs, st.requests, t, newJob);
    } else {
      assert NoneStranded(st.requests, st.jobs);
    }
  }

  // ---- a transition keeps the store well formed --------------------------------------------

  /** The job's own move, seen from the other tables. */
  lemma MoveKeepsJobs(st: Store, j: Id, state: JobState, changes: Changes)
    requires JobsOk(st.sources, st.jobs) && j in st.jobs
    requires RequestsOk(st.targets, st.sources, st.subscriptions, st.jobs, st.requests)
    ensures JobsOk(st.sources, MoveJob(st, j, state, changes).jobs)
    ensures RequestsOk(st.targets, st.sources, st.subscriptions, MoveJob(st, j, state, changes).jobs, st.requests)
  {
    JobsKeepRequests(st.targets, st.sources, st.subscriptions, st.jobs, MoveJob(st, j, state, changes).jobs, st.requests);
  }

  lemma EndingFreesTarget(jobs: JobMap, j: Id, job: Job)
    requires j in jobs && OneActive(jobs) && SameWorker(jobs[j], job) && IsTerminal(job.state) && !IsTerminal(jobs[j].state)
    ensures OneActive(jobs[j := job])
    ensures forall t :: job.target != Some(t) ==> (HasActive(jobs[j := job], t) <==> HasActive(jobs, t))
    ensures job.target.Some? ==> !HasActive(jobs[j := job], job.target.value)
  {
    var after := jobs[j := job];
    forall a, t ensures IsActive(after, a, t) <==> IsActive(jobs, a, t) && a != j {
    }
    if job.target.Some? {
      assert IsActive(jobs, j, job.target.value);
    }
    forall t | job.target != Some(t) ensures HasActive(after, t) <==> HasActive(jobs, t) {
      if HasActive(jobs, t) {
        var a :| IsActive(jobs, a, t);
        assert IsActive(after, a, t);
      }
    }
  }

  predicate SameWorker(a: Job, b: Job) {
    a.source == b.source && a.target == b.target
  }

  lemma RevivingKeepsActive(jobs: JobMap, j: Id, job: Job)
    requires j in jobs && OneActive(jobs) && SameWorker(jobs[j], job) && IsTerminal(jobs[j].state)
    requires job.target.Some? ==> !HasActive(jobs, job.target.value)
    ensures OneActive(jobs[j := job])
    ensures forall t :: HasActive(jobs, t) ==> HasActive(jobs[j := job], t)
  {
    var after := jobs[j := job];
    forall a, t | IsActive(after, a, t) && a != j ensures IsActive(jobs, a, t) && HasActive(jobs, t) {
      assert IsActive(jobs, a, t);
    }
    forall t | HasActive(jobs, t) ensures HasActive(after, t) {
      var a :| IsActive(jobs, a, t);
      assert IsActive(after, a, t);
    }
  }

  /** Moves that do not end the job. */
  lemma PlainMoveKeeps(st: Store, j: Id, state: JobState, changes: Changes)
    requires Core(st) && j in st.jobs
    requires !(IsTerminal(state) && !IsTerminal(st.jobs[j].state))
    requires Revives(st, j, state) ==> !HasActive(st.jobs, st.jobs[j].target.value)
    ensures Core(MoveJob(st, j, state, changes))
  {
    var job := Moved(st.jobs[j], state, changes);
    if IsTerminal(state) == IsTerminal(st.jobs[j].state) {
      ReshapingKeepsCore(st, st.jobs[j := job]);
    } else {
      MoveKeepsJobs(st, j, state, changes);
      RevivingKeepsActive(st.jobs, j, job);
    }
  }

  lemma SettlingKeepsStranded(st: Store, j: Id, job: Job, t: Id)
    requires NoneStranded(st.requests, st.jobs) && OneActive(st.jobs) && j in st.jobs
    requires SameWorker(st.jobs[j], job) && IsTerminal(job.state) && !IsTerminal(st.jobs[j].state)
    requires job.target.Some? ==> job.target.value == t
    ensures NoneStrandedBut(Settled(st.requests, j, job.state), st.jobs[j := job], t)
    ensures job.target.None? ==> NoneStranded(Settled(st.requests, j, job.state), st.jobs[j := job])
  {
    EndingFreesTarget(st.jobs, j, job);
    var after := Settled(st.requests, j, job.state);
    forall r | r in after && Pending(after[r]) ensures Pending(st.requests[r]) && HasActive(st.jobs, after[r].target) {
    }
  }

  /** After the ending move and before its successor starts, only the job's own target is open. */
  lemma SettlingKeeps(st: Store, j: Id, state: JobState, changes: Changes, t: Id)
    requires Core(st) && j in st.jobs && IsTerminal(state) && !IsTerminal(st.jobs[j].state)
    requires st.jobs[j].target.Some? ==> st.jobs[j].target.value == t
    ensures CoreBut(SettledStore(st, j, state, changes), t)
    ensures st.jobs[j].target.None? ==> Core(SettledStore(st, j, state, changes))
  {
    MoveKeepsJobs(st, j, state, changes);
    SettledKeeps(MoveJob(st, j, state, changes), j, state);
    SettlingKeepsStranded(st, j, Moved(st.jobs[j], state, changes), t);
    EndingFreesTarget(st.jobs, j, Moved(st.jobs[j], state, changes));
  }

  lemma RecordedIsSameNames(st: Store, job: Job, t: Id)
    ensures SameNames(st.targets, Recorded(st, job, t))
  {
  }

  lemma SameNamesKeepCoreBut(st: Store, targets: map<Id, Target>, t: Id)
    requires CoreBut(st, t) && SameNames(st.targets, targets)
    ensures CoreBut(st.(targets := targets), t)
  {
    SameNamesKeepTables(st, targets);
    RenamedTargetsKeepRequests(st, targets);
  }

  lemma EndTargetedKeeps(st: Store, j: Id, state: JobState, changes: Changes, t: Id, newJob: Id, primary: Option<Id>, now: int)
    requires Core(st) && j in st.jobs && IsTerminal(state) && !IsTerminal(st.jobs[j].state) && newJob !in st.jobs
    requires st.jobs[j].target == Some(t) && primary.Some? && Backs(st.sources, primary.value, t)
    ensures var settled := SettledStore(st, j, state, changes);
            Core(StartSuccessor(settled.(targets := Recorded(settled, settled.jobs[j], t)), t, newJob, primary, now))
  {
    var settled := SettledStore(st, j, state, changes);
    SettlingKeeps(st, j, state, changes, t);
    EndingFreesTarget(st.jobs, j, settled.jobs[j]);
    RecordedIsSameNames(settled, settled.jobs[j], t);
    SameNamesKeepCoreBut(settled, Recorded(settled, settled.jobs[j], t), t);
    SuccessorKeeps(settled.(targets := Recorded(settled, settled.jobs[j], t)), t, newJob, primary, now);
  }

  /** The choice of worker source that a step needs is the repository's. */
  ghost predicate PrimaryFor(st: Store, target: Option<Id>, primary: Option<Id>) {
    target.Some? ==> IsPrimary(st, target.value, primary)
  }

  lemma PrimaryExists(st: Store, target: Option<Id>, primary: Option<Id>)
    requires Inv(st) && PrimaryFor(st, target, primary)
    ensures target.Some? && target.value in st.targets ==> primary.Some? && Backs(st.sources, primary.value, target.value)
  {
    if target.Some? && target.value in st.targets {
      PrimaryBacks(st, target.value, primary);
      assert HasSource(st.sources, target.value);
    }
  }

  lemma TargetOfJob(st: Store, j: Id)
    requires Inv(st) && j in st.jobs && st.jobs[j].target.Some?
    ensures st.jobs[j].target.value in st.targets
  {
    assert Backs(st.sources, st.jobs[j].source, st.jobs[j].target.value);
  }

  /** A transition keeps the store well formed, whichever states it connects. */
  lemma TransitionKeeps(st: Store, j: Id, state: JobState, changes: Changes, newJob: Id, primary: Option<Id>, now: int)
    requires Inv(st) && j in st.jobs && newJob !in st.jobs && PrimaryFor(st, st.jobs[j].target, primary)
    requires Transition(st, j, state, changes, newJob, primary, now).Success?
    ensures Core(Transition(st, j, state, changes, newJob, primary, now).value)
  {
    if IsTerminal(state) && !IsTerminal(st.jobs[j].state) {
      var target := st.jobs[j].target;
      if target.Some? {
        TargetOfJob(st, j);
        PrimaryExists(st, target, primary);
        EndTargetedKeeps(st, j, state, changes, target.value, newJob, primary, now);
      } else {
        SettlingKeeps(st, j, state, changes, "");
      }
    } else {
      PlainMoveKeeps(st, j, state, changes);
    }
  }

  lemma SuccessorFrame(st: Store, t: Id, newJob: Id, primary: Option<Id>, now: int)
    ensures StartSuccessor(st, t, newJob, primary, now).sources == st.sources
    ensures StartSuccessor(st, t, newJob, primary, now).targets == st.targets
  {
  }

  lemma EndJobFrame(st: Store, job: Job, newJob: Id, primary: Option<Id>, now: int)
    ensures EndJob(st, job, newJob, primary, now).sources == st.sources
    ensures EndJob(st, job, newJob, primary, now).targets.Keys == st.targets.Keys
  {
    if job.target.Some? {
      SuccessorFrame(st.(targets := Recorded(st, job, job.target.value)), job.target.value, newJob, primary, now);
    }
  }

  lemma TransitionKeepsSourced(st: Store, j: Id, state: JobState, changes: Changes, newJob: Id, primary: Option<Id>, now: int)
    requires Sourced(st.targets, st.sources) && Transition(st, j, state, changes, newJob, primary, now).Success?
    ensures Sourced(Transition(st, j, state, changes, newJob, primary, now).value.targets,
                    Transition(st, j, state, changes, newJob, primary, now).value.sources)
  {
    EndJobFrame(SettledStore(st, j, state, changes), Moved(st.jobs[j], state, changes), newJob, primary, now);
  }

  /** What starting a successor does for a target without an unfinished job. */
  lemma SuccessorTakesAll(st: Store, t: Id, newJob: Id, primary: Option<Id>, now: int)
    requires primary.Some? && primary.value in st.sources && newJob !in st.jobs
    ensures var after := StartSuccessor(st, t, newJob, primary, now);
            && !SomeWait(after.requests, t)
            && (newJob in after.jobs <==> SomeWait(st.requests, t))
            && (SomeWait(st.requests, t) ==>
                  IsActive(after.jobs, newJob, t) && after.jobs[newJob] == TargetJob(st, t, primary.value, now))
            && (forall j :: j in st.jobs ==> j in after.jobs && after.jobs[j] == st.jobs[j])
            && forall r :: r in st.requests && Waits(st.requests[r], t) ==>
                 r in after.requests && after.requests[r] == st.requests[r].(job := Some(newJob))
  {
  }

  lemma SettledWaits(st: Store, j: Id, state: JobState, t: Id)
    ensures SomeWait(Settled(st.requests, j, state), t) <==> SomeWait(st.requests, t)
    ensures forall r :: r in st.requests && Waits(st.requests[r], t) ==> Settled(st.requests, j, state)[r] == st.requests[r]
  {
    var after := Settled(st.requests, j, state);
    forall r ensures r in st.requests && Waits(st.requests[r], t) <==> r in after && Waits(after[r], t) {
    }
    if SomeWait(st.requests, t) {
      var r :| r in st.requests && Waits(st.requests[r], t);
      assert r in after && Waits(after[r], t);
    }
  }

  /** The step that ends a target's job hands every waiting request to one successor, which is then
      the target's unfinished job; nobody is left waiting, and without waiting requests there is none. */
  lemma EndingHandsOver(st: Store, j: Id, state: JobState, changes: Changes, newJob: Id, primary: Option<Id>, now: int, t: Id)
    requires Inv(st) && j in st.jobs && newJob !in st.jobs && st.jobs[j].target == Some(t) && IsPrimary(st, t, primary)
    requires IsTerminal(state)
    ensures var after := EndJob(SettledStore(st, j, state, changes), Moved(st.jobs[j], state, changes), newJob, primary, now);
            && !SomeWait(after.requests, t)
            && (newJob in after.jobs <==> SomeWait(st.requests, t))
            && (SomeWait(st.requests, t) ==>
                  IsActive(after.jobs, newJob, t) && after.jobs[newJob] == TargetJob(st, t, primary.value, now))
            && forall r :: r in st.requests && Waits(st.requests[r], t) ==>
                 r in after.requests && after.requests[r] == st.requests[r].(job := Some(newJob))
  {
    TargetOfJob(st, j);
    PrimaryExists(st, Some(t), primary);
    SettledWaits(st, j, state, t);
    HandOver(SettledStore(st, j, state, changes), Moved(st.jobs[j], state, changes), newJob, primary, now, t);
  }

  lemma HandOver(st: Store, job: Job, newJob: Id, primary: Option<Id>, now: int, t: Id)
    requires job.target == Some(t) && t in st.targets && primary.Some? && primary.value in st.sources && newJob !in st.jobs
    ensures var after := EndJob(st, job, newJob, primary, now);
            && !SomeWait(after.requests, t)
            && (newJob in after.jobs <==> SomeWait(st.requests, t))
            && (SomeWait(st.requests, t) ==>
                  IsActive(after.jobs, newJob, t) && after.jobs[newJob] == TargetJob(st, t, primary.value, now))
            && (forall j :: j in st.jobs ==> j in after.jobs && after.jobs[j] == st.jobs[j])
            && (!SomeWait(st.requests, t) ==> after.jobs == st.jobs)
            && forall r :: r in st.requests && Waits(st.requests[r], t) ==>
                 r in after.requests && after.requests[r] == st.requests[r].(job := Some(newJob))
  {
    SuccessorTakesAll(st.(targets := Recorded(st, job, t)), t, newJob, primary, now);
  }

  ghost predicate Ends(st: Store, j: Id, state: JobState)
    requires j in st.jobs
  {
    IsTerminal(state) && !IsTerminal(st.jobs[j].state)
  }

  ghost predicate StandsBy(job: Job, r: Request) {
    job.target.None? || !Waits(r, job.target.value)
  }

  lemma SuccessorRecords(st: Store, t: Id, newJob: Id, primary: Option<Id>, now: int, r: Id)
    requires newJob !in st.jobs && r in st.requests
    ensures var after := StartSuccessor(st, t, newJob, primary, now);
            && after.requests.Keys == st.requests.Keys
            && (!Waits(st.requests[r], t) ==> after.requests[r] == st.requests[r])
            && forall i :: i in st.jobs ==> i in after.jobs && after.jobs[i] == st.jobs[i]
  {
  }

  lemma EndJobRecords(st: Store, job: Job, newJob: Id, primary: Option<Id>, now: int, r: Id)
    requires newJob !in st.jobs && r in st.requests
    ensures var after := EndJob(st, job, newJob, primary, now);
            && after.requests.Keys == st.requests.Keys
            && (StandsBy(job, st.requests[r]) ==> after.requests[r] == st.requests[r])
            && forall i :: i in st.jobs ==> i in after.jobs && after.jobs[i] == st.jobs[i]
  {
    if job.target.Some? {
      SuccessorRecords(st.(targets := Recorded(st, job, job.target.value)), job.target.value, newJob, primary, now, r);
    }
  }

  ghost predicate Undisturbed(before: JobMap, after: JobMap, j: Id) {
    forall i :: i in before && i != j ==> i in after && after[i] == before[i]
  }

  /** A move that ends a job ends the requests attached to it, in the state the job ended in. Apart
      from these and the ones handed to the successor, every request stays as it was, and so does
      every other job. */
  lemma EndingSettles(st: Store, j: Id, state: JobState, changes: Changes, newJob: Id, primary: Option<Id>, now: int, r: Id)
    requires j in st.jobs && newJob !in st.jobs && r in st.requests && CanMove(st.jobs[j].state, state) && Ends(st, j, state)
    ensures Transition(st, j, state, changes, newJob, primary, now).Success?
    ensures var after, before := Transition(st, j, state, changes, newJob, primary, now).value, st.requests[r];
            && after.requests.Keys == st.requests.Keys
            && (before.job == Some(j) ==> after.requests[r] == before.(status := Ended(state)))
            && (before.job != Some(j) && StandsBy(st.jobs[j], before) ==> after.requests[r] == before)
            && Undisturbed(st.jobs, after.jobs, j)
  {
    var settled := SettledStore(st, j, state, changes);
    EndJobRecords(settled, Moved(st.jobs[j], state, changes), newJob, primary, now, r);
  }

  /** The end of a job is recorded on its target only if it completed, and on no other target; names and
      configs stay, and so do all tables but the jobs, the requests and the targets. */
  lemma EndingRecords(st: Store, j: Id, state: JobState, changes: Changes, newJob: Id, primary: Option<Id>, now: int, t: Id)
    requires j in st.jobs && newJob !in st.jobs && t in st.targets && CanMove(st.jobs[j].state, state) && Ends(st, j, state)
    ensures Transition(st, j, state, changes, newJob, primary, now).Success?
    ensures var after := Transition(st, j, state, changes, newJob, primary, now).value;
            && after == st.(jobs := after.jobs, requests := after.requests, targets := after.targets)
            && after.targets.Keys == st.targets.Keys
            && after.targets[t] == st.targets[t].(coverage := after.targets[t].coverage)
            && (state != COMPLETED || st.jobs[j].target != Some(t) ==> after.targets[t].coverage == st.targets[t].coverage)
            && j in after.jobs && after.jobs[j] == Moved(st.jobs[j], state, changes)
  {
    var settled := SettledStore(st, j, state, changes);
    RecordedFrame(settled, Moved(st.jobs[j], state, changes), newJob, primary, now, t);
  }

  lemma RecordedFrame(st: Store, job: Job, newJob: Id, primary: Option<Id>, now: int, t: Id)
    requires newJob !in st.jobs && t in st.targets
    ensures var after := EndJob(st, job, newJob, primary, now);
            && after == st.(jobs := after.jobs, requests := after.requests, targets := after.targets)
            && after.targets.Keys == st.targets.Keys
            && after.targets[t] == st.targets[t].(coverage := after.targets[t].coverage)
            && (job.state != COMPLETED || job.target != Some(t) ==> after.targets[t].coverage == st.targets[t].coverage)
            && forall i :: i in st.jobs ==> i in after.jobs && after.jobs[i] == st.jobs[i]
  {
    if job.target.Some? && job.target.value in st.targets {
      OnlyCoverageRecorded(st, job, job.target.value, t);
      SuccessorFrameOnly(st.(targets := Recorded(st, job, job.target.value)), job.target.value, newJob, primary, now);
    }
  }

  lemma OnlyCoverageRecorded(st: Store, job: Job, t: Id, u: Id)
    requires t in st.targets && u in st.targets
    ensures var after := Recorded(st, job, t);
            && after.Keys == st.targets.Keys && after[u] == st.targets[u].(coverage := after[u].coverage)
            && (job.state != COMPLETED || t != u ==> after[u].coverage == st.targets[u].coverage)
  {
  }

  lemma SuccessorFrameOnly(st: Store, t: Id, newJob: Id, primary: Option<Id>, now: int)
    requires newJob !in st.jobs
    ensures var after := StartSuccessor(st, t, newJob, primary, now);
            && after == st.(jobs := after.jobs, requests := after.requests)
            && forall i :: i in st.jobs ==> i in after.jobs && after.jobs[i] == st.jobs[i]
  {
  }

  /** The in-memory code runs the same hooks when a finished job moves between terminal states. That
      keeps one unfinished job for each target exactly when no request waits for the target. */
  lemma RerunHooksSafeIffNobodyWaits(st: Store, j: Id, state: JobState, changes: Changes, newJob: Id,
                                     primary: Option<Id>, now: int, t: Id)
    requires Inv(st) && j in st.jobs && newJob !in st.jobs && st.jobs[j].target == Some(t) && IsPrimary(st, t, primary)
    requires IsTerminal(state) && IsTerminal(st.jobs[j].state)
    ensures OneActive(EndJob(SettledStore(st, j, state, changes), Moved(st.jobs[j], state, changes), newJob, primary, now).jobs)
            <==> !SomeWait(st.requests, t)
  {
    TargetOfJob(st, j);
    PrimaryExists(st, Some(t), primary);
    RerunHooks(st, j, state, changes, newJob, primary, now, t);
  }

  lemma RerunHooks(st: Store, j: Id, state: JobState, changes: Changes, newJob: Id, primary: Option<Id>, now: int, t: Id)
    requires OneActive(st.jobs) && NoneStranded(st.requests, st.jobs)
    requires j in st.jobs && newJob !in st.jobs && st.jobs[j].target == Some(t) && t in st.targets
    requires primary.Some? && primary.value in st.sources && IsTerminal(state) && IsTerminal(st.jobs[j].state)
    ensures OneActive(EndJob(SettledStore(st, j, state, changes), Moved(st.jobs[j], state, changes), newJob, primary, now).jobs)
            <==> !SomeWait(st.requests, t)
  {
    var settled := SettledStore(st, j, state, changes);
    SettledWaits(st, j, state, t);
    HandOver(settled, Moved(st.jobs[j], state, changes), newJob, primary, now, t);
    ReshapingKeepsActive(st.jobs, settled.jobs);
    if SomeWait(st.requests, t) {
      WaitersHaveJob(st, t);
      TwoActive(settled.jobs, EndJob(settled, Moved(st.jobs[j], state, changes), newJob, primary, now).jobs, newJob, t);
    }
  }

  lemma WaitersHaveJob(st: Store, t: Id)
    requires NoneStranded(st.requests, st.jobs) && SomeWait(st.requests, t)
    ensures HasActive(st.jobs, t)
  {
    var r :| r in st.requests && Waits(st.requests[r], t);
    assert Pending(st.requests[r]);
  }

  /** Queueing a finished job again keeps one unfinished job for its target exactly when the target has
      none: the in-memory code does not look, and the partial index of the database refuses. */
  lemma RevivalSafeIffTargetIdle(st: Store, j: Id, state: JobState, changes: Changes, t: Id)
    requires OneActive(st.jobs) && j in st.jobs && st.jobs[j].target == Some(t)
    requires IsTerminal(st.jobs[j].state) && !IsTerminal(state)
    ensures OneActive(MoveJob(st, j, state, changes).jobs) <==> !HasActive(st.jobs, t)
  {
    var after := MoveJob(st, j, state, changes).jobs;
    if HasActive(st.jobs, t) {
      var a :| IsActive(st.jobs, a, t);
      assert a != j && IsActive(after, a, t) && IsActive(after, j, t);
    } else {
      RevivingKeepsActive(st.jobs, j, after[j]);
    }
  }

  lemma TwoActive(jobs: JobMap, after: JobMap, newJob: Id, t: Id)
    requires HasActive(jobs, t) && newJob !in jobs && IsActive(after, newJob, t)
    requires forall j :: j in jobs ==> j in after && after[j] == jobs[j]
    ensures !OneActive(after)
  {
    var a :| IsActive(jobs, a, t);
    assert IsActive(after, a, t);
  }

  // ---- pinned targets ------------------------------------------------------------------------

  /** What to do about a due pin: switch it off, try again later, or start a job for a source. */
  datatype Dispatch = SwitchOff | Postpone | StartFor(source: Id)

  ghost function DispatchFor(st: Store, t: Id, primary: Option<Id>): Dispatch {
    if !HasEnabled(st.subscriptions, t) then SwitchOff
    else if HasActive(st.jobs, t) || primary.None? || primary.value !in st.sources then Postpone
    else StartFor(primary.value)
  }

  function Dispatched(st: Store, t: Id, dispatch: Dispatch, newJob: Id, now: int): Store
    requires t in st.pins
  {
    var pin := st.pins[t];
    match dispatch
    case SwitchOff => st.(pins := st.pins[t := pin.(enabled := false)])
    case Postpone => st.(pins := st.pins[t := pin.(nextRun := now + 60 * pin.interval)])
    case StartFor(s) =>
      if s !in st.sources then st
      else st.(pins := st.pins[t := pin.(lastDispatched := Some(now), nextRun := now + 60 * pin.interval)],
               jobs := st.jobs[newJob := TargetJob(st, t, s, now)])
  }

  /** One due pin: off when nobody has the target enabled, otherwise a job unless one is unfinished. */
  ghost function DispatchPin(st: Store, t: Id, newJob: Id, primary: Option<Id>, now: int): Store
    requires t in st.pins
  {
    Dispatched(st, t, DispatchFor(st, t, primary), newJob, now)
  }

  /** What a dispatch does to a pin that somebody has enabled: it is due again after its interval of
      minutes and not before, and it is dated if a job started. */
  predicate Rescheduled(before: Pin, after: Pin, starts: bool, now: int) {
    && after.enabled == before.enabled && after.interval == before.interval
    && after.nextRun - now == before.interval * 60
    && after.lastDispatched == if starts then Some(now) else before.lastDispatched
  }

  /** A pin that somebody has enabled is rescheduled, and a job for a worker source starts unless one is
      unfinished. A pin that nobody has enabled goes off. Nothing else changes. */
  lemma DispatchMeans(st: Store, t: Id, newJob: Id, primary: Option<Id>, now: int)
    requires t in st.pins && newJob !in st.jobs && (primary.Some? ==> primary.value in st.sources)
    ensures var after := DispatchPin(st, t, newJob, primary, now);
            var wanted, idle := HasEnabled(st.subscriptions, t), primary.Some? && !HasActive(st.jobs, t);
            && t in after.pins && after == st.(pins := st.pins[t := after.pins[t]], jobs := after.jobs)
            && (wanted ==> Rescheduled(st.pins[t], after.pins[t], idle, now))
            && (!wanted ==> after.pins[t] == st.pins[t].(enabled := false))
            && after.jobs == if wanted && idle then st.jobs[newJob := TargetJob(st, t, primary.value, now)] else st.jobs
  {
    var dispatch := DispatchFor(st, t, primary);
    DispatchedMeans(st, t, dispatch, newJob, now);
  }

  lemma DispatchedMeans(st: Store, t: Id, dispatch: Dispatch, newJob: Id, now: int)
    requires t in st.pins && (dispatch.StartFor? ==> dispatch.source in st.sources)
    ensures var after := Dispatched(st, t, dispatch, newJob, now);
            && t in after.pins && after == st.(pins := st.pins[t := after.pins[t]], jobs := after.jobs)
            && (!dispatch.SwitchOff? ==> Rescheduled(st.pins[t], after.pins[t], dispatch.StartFor?, now))
            && (dispatch.SwitchOff? ==> after.pins[t] == st.pins[t].(enabled := false))
            && after.jobs == if dispatch.StartFor? then st.jobs[newJob := TargetJob(st, t, dispatch.source, now)] else st.jobs
  {
  }

  lemma PinChangeKeeps(st: Store, t: Id, pin: Pin)
    requires Inv(st) && t in st.targets
    ensures Inv(st.(pins := st.pins[t := pin]))
  {
  }

  lemma StartedKeeps(st: Store, t: Id, s: Id, newJob: Id, now: int)
    requires Inv(st) && t in st.pins && newJob !in st.jobs && Backs(st.sources, s, t) && !HasActive(st.jobs, t)
    ensures Inv(Dispatched(st, t, StartFor(s), newJob, now))
  {
    var pin := st.pins[t];
    NewJobKeepsCore(st, newJob, TargetJob(st, t, s, now));
    PinChangeKeeps(st.(jobs := st.jobs[newJob := TargetJob(st, t, s, now)]), t,
                   pin.(lastDispatched := Some(now), nextRun := now + 60 * pin.interval));
  }

  lemma DispatchKeeps(st: Store, t: Id, newJob: Id, primary: Option<Id>, now: int)
    requires Inv(st) && t in st.pins && newJob !in st.jobs && IsPrimary(st, t, primary)
    ensures Inv(DispatchPin(st, t, newJob, primary, now))
  {
    var pin := st.pins[t];
    PrimaryExists(st, Some(t), primary);
    match DispatchFor(st, t, primary)
    case SwitchOff => PinChangeKeeps(st, t, pin.(enabled := false));
    case Postpone => PinChangeKeeps(st, t, pin.(nextRun := now + 60 * pin.interval));
    case StartFor(s) => StartedKeeps(st, t, s, newJob, now);
  }
}
