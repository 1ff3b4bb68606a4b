/** The in-memory repository: its dictionaries as fields, its coordinator operations as methods that
    update them in place. Each method is proved against the operation on tables it stands for.
    apps/api/monitube_api/infrastructure/memory_jobs.py and memory_repository.py */
module Repository {
  import opened Common
  import opened CollectionPolicy
  import opened Jobs
  import opened Store
  import opened Sources
  import opened Lifecycle
  import opened Submission
  import opened Promotion
  import opened Coordinator
  import opened Tables
  import Coverage

  class InMemoryRepository {
    var targets: map<Id, Target>
    var keys: map<(SourceType, string), Id>
    var aliases: map<Alias, Id>
    var sources: map<Id, Source>
    var subscriptions: map<Id, Subscription>
    var subscriptionIds: map<(Id, Id), Id>
    var requests: map<Id, Request>
    var jobs: JobMap
    var targetVideos: map<Id, set<Id>>
    var firstSeen: map<(Id, Id), int>
    var pins: map<Id, Pin>

    constructor ()
      ensures Snapshot() == EMPTY && Valid()
    {
      targets, keys, aliases, sources := map[], map[], map[], map[];
      subscriptions, subscriptionIds, requests, jobs := map[], map[], map[], map[];
      targetVideos, firstSeen, pins := map[], map[], map[];
    }

    ghost function Snapshot(): Store
      reads this
    {
      Tables(targets, keys, aliases, sources, subscriptions, subscriptionIds, requests, jobs, targetVideos, firstSeen, pins)
    }

    ghost predicate Valid()
      reads this
    {
      Inv(Snapshot())
    }

    // ---- leases --------------------------------------------------------------------------

    /** Hands the oldest claimable job to the worker, or proves that there is none. */
    method ClaimNextJob(worker: Id, now: int, seconds: int) returns (claimed: Option<Id>)
      requires Valid()
      modifies this`jobs
      ensures Valid()
      ensures claimed.None? ==> jobs == old(jobs) && forall j :: j in jobs ==> !(Startable(jobs[j]) && Free(jobs[j], now))
      ensures claimed.Some? ==>
                && claimed.value in old(jobs) && Startable(old(jobs)[claimed.value]) && Free(old(jobs)[claimed.value], now)
                && (forall other :: other in old(jobs) && Startable(old(jobs)[other]) && Free(old(jobs)[other], now) ==>
                      old(jobs)[claimed.value].created <= old(jobs)[other].created)
                && jobs == old(jobs)[claimed.value := Claimed(old(jobs)[claimed.value], worker, now, seconds)]
    {
      claimed := FindClaimable(jobs, now);
      forall j | j in jobs ensures Claimable(jobs[j], now) <==> Startable(jobs[j]) && Free(jobs[j], now) {
        ClaimableMeans(jobs[j], now);
      }
      if claimed.Some? {
        ClaimKeeps(Snapshot(), claimed.value, worker, now, seconds);
        jobs := jobs[claimed.value := jobs[claimed.value].(state := RUNNING, resumeAt := None, leaseOwner := Some(worker),
                                                           leaseExpires := Some(now + seconds))];
      }
    }

    method RenewJobLease(j: Id, worker: Id, now: int, seconds: int) returns (renewed: bool)
      requires Valid()
      modifies this`jobs
      ensures Valid()
      ensures renewed == (j in old(jobs) && Renewable(old(jobs)[j], worker))
      ensures jobs == if renewed then old(jobs)[j := Renewed(old(jobs)[j], now, seconds)] else old(jobs)
    {
      renewed := j in jobs && jobs[j].state == RUNNING && jobs[j].leaseOwner == Some(worker);
      if renewed {
        RenewKeeps(Snapshot(), j, worker, now, seconds);
        jobs := jobs[j := jobs[j].(leaseExpires := Some(now + seconds))];
      }
    }

    // ---- jobs ------------------------------------------------------------------------------

    method EnqueueVideoJobs(parentId: Id, parent: Job, videos: seq<string>, ids: seq<Id>, now: int) returns (created: nat)
      requires Valid() && parentId in jobs && parent == jobs[parentId] && |ids| == |videos| && UnusedIds(jobs, ids)
      modifies this`jobs
      ensures Valid()
      ensures jobs == Jobs.EnqueueVideoJobs(old(jobs), parentId, parent, videos, ids, now)
      ensures |jobs| == |old(jobs)| + created
    {
      EnqueueKeeps(Snapshot(), parentId, videos, ids, now);
      jobs, created := AddVideoJobs(jobs, parentId, parent, videos, ids, now);
    }

    method ChildJobSummary(parentId: Id) returns (s: Summary)
      ensures s == Jobs.ChildJobSummary(jobs, parentId)
      ensures (s.terminal >= s.total && s.failed == 0) <==> AllSucceeded(jobs, parentId)
    {
      s := CountChildren(jobs, parentId);
      SummaryDecidesSuccess(jobs, parentId);
    }

    method CreateJob(id: Id, owner: Option<Id>, scope: Scope, newJob: Id, now: int)
        returns (result: Result<Id, Error>, ghost primary: Option<Id>)
      requires Valid() && newJob !in jobs
      modifies this`jobs
      ensures Valid()
      ensures id in subscriptions ==> IsPrimary(old(Snapshot()), subscriptions[id].target, primary)
      ensures var created := Lifecycle.CreateJob(old(Snapshot()), id, owner, scope, newJob, primary, now);
              && result.Failure? == created.Failure? && (result.Failure? ==> result.error == created.error)
              && Snapshot() == Resulting(old(Snapshot()), created)
      ensures var worker := WorkerSource(old(Snapshot()), id, owner, primary);
              result.Success? ==> worker.Success? && worker.value in sources && JobFor(worker.value, result.value, newJob)
    {
      ghost var before := Snapshot();
      var worker;
      worker, primary := FindWorkerSource(id, owner);
      CreatingKeeps(before, id, owner, scope, newJob, primary, now);
      if worker.Failure? {
        result := Failure(worker.error);
      } else {
        var j := StartJob(worker.value, scope, newJob, now);
        result := Success(j);
      }
    }

    /** The worker source behind a public source id. */
    method FindWorkerSource(id: Id, owner: Option<Id>) returns (worker: Result<Id, Error>, ghost primary: Option<Id>)
      ensures id in subscriptions ==> IsPrimary(Snapshot(), subscriptions[id].target, primary)
      ensures worker == WorkerSource(Snapshot(), id, owner, primary)
      ensures worker.Success? ==> worker.value in sources
    {
      primary := None;
      if id in subscriptions {
        var found := FindPrimary(sources, requests, subscriptions[id].target);
        primary := found;
        if OwnSubscriptionOf(subscriptions, id, owner) {
          worker := if found.Some? then Success(found.value) else Failure(NoWorkerSource);
          return;
        }
      }
      if id !in sources
         || (owner.Some? && (sources[id].target.Some? || (sources[id].owner.Some? && sources[id].owner != owner))) {
        worker := Failure(NotFound);
      } else {
        worker := Success(id);
      }
    }

    /** The job of a worker source: a new one, or the unfinished one its target already had. */
    ghost predicate JobFor(worker: Id, j: Id, newJob: Id)
      requires worker in sources
      reads this`jobs, this`sources
    {
      && j in jobs && jobs[j].target == sources[worker].target
      && (j == newJob || (sources[worker].target.Some? && IsActive(jobs, j, sources[worker].target.value)))
    }

    method StartJob(worker: Id, scope: Scope, newJob: Id, now: int) returns (j: Id)
      requires worker in sources && newJob !in jobs
      modifies this`jobs
      ensures Snapshot() == if TargetBusyFor(old(Snapshot()), worker) then old(Snapshot())
                            else AddJob(old(Snapshot()), worker, scope, newJob, now)
      ensures JobFor(worker, j, newJob)
    {
      var target := sources[worker].target;
      if target.Some? {
        var active := FindActive(jobs, target.value);
        if active.Some? {
          j := active.value;
          return;
        }
      }
      jobs := jobs[newJob := Job(worker, QUEUED, scope, map[], None, None, None, now, target, None)];
      j := newJob;
    }

    static predicate OwnSubscriptionOf(subs: map<Id, Subscription>, id: Id, owner: Option<Id>) {
      id in subs && (owner.None? || subs[id].user == owner.value)
    }

    /** Moves a job; the move that ends it settles its requests, records coverage and hands the
        waiting requests to one successor. */
    method TransitionJob(j: Id, state: JobState, changes: Changes, newJob: Id, now: int)
        returns (result: Result<(), Error>, ghost primary: Option<Id>)
      requires Valid() && newJob !in jobs
      modifies this
      ensures Valid()
      ensures j in old(jobs) ==> PrimaryFor(old(Snapshot()), old(jobs)[j].target, primary)
      ensures var moved := Transition(old(Snapshot()), j, state, changes, newJob, primary, now);
              && result.Failure? == moved.Failure?
              && (moved.Failure? ==> result.error == moved.error)
              && Snapshot() == Resulting(old(Snapshot()), moved)
    {
      var found: Option<Id> := None;
      if j in jobs && jobs[j].target.Some? {
        found := FindPrimary(sources, requests, jobs[j].target.value);
      }
      primary := found;
      MovingKeeps(Snapshot(), j, state, changes, newJob, primary, now);
      result := MoveAndSettle(j, state, changes, newJob, found, now);
    }

    method MoveAndSettle(j: Id, state: JobState, changes: Changes, newJob: Id, primary: Option<Id>, now: int)
        returns (result: Result<(), Error>)
      modifies this
      ensures var moved := Transition(old(Snapshot()), j, state, changes, newJob, primary, now);
              && result.Failure? == moved.Failure?
              && (moved.Failure? ==> result.error == moved.error)
              && Snapshot() == Resulting(old(Snapshot()), moved)
    {
      var error := RefuseMove(j, state, changes, newJob, primary, now);
      if error.Some? {
        return Failure(error.value);
      }
      result := Success(());
      ApplyMove(j, state, changes, newJob, primary, now);
    }

    /** Why a move is refused, if it is. */
    method RefuseMove(j: Id, state: JobState, ghost changes: Changes, ghost newJob: Id, ghost primary: Option<Id>,
                      ghost now: int)
        returns (error: Option<Error>)
      ensures var moved := Transition(Snapshot(), j, state, changes, newJob, primary, now);
              error == if moved.Failure? then Some(moved.error) else None
    {
      error := None;
      if j !in jobs {
        return Some(NotFound);
      }
      var record := jobs[j];
      if state != record.state && state !in AllowedTransitions(record.state) {
        return Some(InvalidTransition);
      }
      if IsTerminal(record.state) && !IsTerminal(state) && record.target.Some? {
        var active := FindActive(jobs, record.target.value);
        if active.Some? {
          return Some(TargetBusy);
        }
      }
    }

    /** The move itself, and what follows when it ends the job. */
    method ApplyMove(j: Id, state: JobState, changes: Changes, newJob: Id, primary: Option<Id>, now: int)
      requires j in jobs
      modifies this
      ensures Snapshot() ==
              if IsTerminal(state) && !IsTerminal(old(jobs)[j].state) then
                EndJob(SettledStore(old(Snapshot()), j, state, changes), Moved(old(jobs)[j], state, changes), newJob,
                  primary, now)
              else MoveJob(old(Snapshot()), j, state, changes)
    {
      ghost var before := Snapshot();
      var record := jobs[j];
      var updated := Moved(record, state, changes);
      jobs := jobs[j := updated];
      if IsTerminal(state) && !IsTerminal(record.state) {
        SettleRequests(j, state);
        assert Snapshot() == SettledStore(before, j, state, changes);
        if updated.target.Some? && updated.target.value in targets {
          FinishTarget(updated, updated.target.value, newJob, primary, now);
        }
      }
    }

    method SettleRequests(j: Id, state: JobState)
      modifies this`requests
      ensures requests == Settled(old(requests), j, state)
    {
      requests := ReplaceEach(requests, (r: Request) =>
        if r.job == Some(j) then r.(status := Ended(state)) else r);
    }

    /** Records coverage and starts the successor. */
    method FinishTarget(job: Job, t: Id, newJob: Id, primary: Option<Id>, now: int)
      requires t in targets && job.target == Some(t)
      modifies this
      ensures Snapshot() == EndJob(old(Snapshot()), job, newJob, primary, now)
    {
      if job.state == COMPLETED && job.source in sources {
        var source := sources[job.source];
        var coverage := JobCoverage(job.scope, source.kind, source.config);
        targets := targets[t := targets[t].(coverage := coverage.(complete := true))];
      }
      ghost var recorded := Snapshot();
      assert recorded == old(Snapshot()).(targets := Recorded(old(Snapshot()), job, t));
      var attached, pending := AttachWaiting(requests, t, newJob);
      if pending && primary.Some? && primary.value in sources {
        jobs := jobs[newJob := NewTargetJob(sources[primary.value], primary.value, t, now)];
        requests := attached;
      }
    }

    static function NewTargetJob(source: Source, s: Id, t: Id, now: int): Job {
      Job(s, QUEUED, ScopeOf(source.kind, source.config), map[], None, None, None, now, Some(t), None)
    }

    // ---- subscriptions, sources and pins ---------------------------------------------------

    method SyncPinForTarget(t: Id, now: int)
      modifies this`pins
      ensures Snapshot() == SyncPin(old(Snapshot()), t, now)
    {
      if t !in targets {
        return;
      }
      var hasEnabled := AnyEnabled(subscriptions, t);
      if !hasEnabled {
        if t in pins {
          pins := pins[t := pins[t].(enabled := false)];
        }
      } else if t in pins {
        pins := pins[t := pins[t].(enabled := true, nextRun := now)];
      } else if !targets[t].kind.DirectVideo? {
        pins := pins[t := Pin(true, PIN_INTERVAL, now, None)];
      }
    }

    /** Creates the user's subscription to the target, or enables the one there is. */
    method Subscribe(user: Id, t: Id, newId: Id, now: int) returns (id: Id)
      requires (user, t) in subscriptionIds ==>
                 subscriptionIds[(user, t)] in subscriptions && PairOf(subscriptions[subscriptionIds[(user, t)]]) == (user, t)
      modifies this`subscriptions, this`subscriptionIds, this`pins
      ensures id == EnsuredId(old(Snapshot()), user, t, newId)
      ensures Snapshot() == EnsureSubscription(old(Snapshot()), user, t, newId, now)
    {
      if (user, t) in subscriptionIds {
        id := subscriptionIds[(user, t)];
        subscriptions := subscriptions[id := subscriptions[id].(enabled := true)];
        assert subscriptionIds == subscriptionIds[(user, t) := id];
      } else {
        id := newId;
        subscriptions := subscriptions[id := Subscription(user, t, true)];
        subscriptionIds := subscriptionIds[(user, t) := id];
      }
      assert Snapshot() == AddSubscription(old(Snapshot()), user, t, id);
      SyncPinForTarget(t, now);
    }

    method EnsureSubscriptionTo(user: Id, t: Id, newId: Id, now: int) returns (result: Result<Id, Error>)
      requires Valid() && newId !in subscriptions
      modifies this`subscriptions, this`subscriptionIds, this`pins
      ensures Valid()
      ensures result.Success? <==> t in targets
      ensures t in targets ==> Snapshot() == EnsureSubscription(old(Snapshot()), user, t, newId, now)
      ensures t !in targets ==> Snapshot() == old(Snapshot())
      ensures result.Success? ==> result.value in subscriptions && subscriptions[result.value] == Subscription(user, t, true)
    {
      if t !in targets {
        return Failure(NotFound);
      }
      EnsureSubscriptionKeeps(Snapshot(), user, t, newId, now);
      EnsuredIsEnabled(Snapshot(), user, t, newId, now);
      var id := Subscribe(user, t, newId, now);
      result := Success(id);
    }

    /** Adds a legacy source; it has an owner instead of a target. */
    method CreateSource(id: Id, kind: SourceType, config: Config, owner: Option<Id>, now: int)
      requires Valid() && id !in sources && id !in subscriptions
      modifies this`sources
      ensures Valid() && Snapshot() == Sources.CreateSource(old(Snapshot()), id, kind, config, owner, now)
    {
      NewLegacyKeeps(Snapshot(), id, kind, config, owner, now);
      sources := sources[id := Source(kind, config, None, owner, now)];
    }

    /** Schedules a target: at once when it is switched on, otherwise as it was. */
    method SetTargetPin(t: Id, enabled: bool, interval: nat, now: int) returns (found: bool)
      requires Valid()
      modifies this`pins
      ensures Valid() && found == (t in targets)
      ensures Snapshot() == SetPin(old(Snapshot()), t, enabled, interval, now)
    {
      found := t in targets;
      if found {
        SetPinKeeps(Snapshot(), t, enabled, interval, now);
        var next, last := now, None;
        if t in pins {
          next, last := if enabled then now else pins[t].nextRun, pins[t].lastDispatched;
        }
        pins := pins[t := Pin(enabled, interval, next, last)];
      }
    }

    /** Records that a source's target has a video; the first time it was seen is kept. */
    method LinkSourceVideo(source: Id, v: Id, now: int)
      requires Valid()
      modifies this`targetVideos, this`firstSeen
      ensures Valid() && Snapshot() == LinkVideo(old(Snapshot()), source, v, now)
    {
      LinkVideoKeeps(Snapshot(), source, v, now);
      ApplyLink(source, v, now);
    }

    method ApplyLink(source: Id, v: Id, now: int)
      modifies this`targetVideos, this`firstSeen
      ensures Snapshot() == LinkVideo(old(Snapshot()), source, v, now)
    {
      var target := if source in subscriptions then Some(subscriptions[source].target)
                    else if source in sources then sources[source].target
                    else None;
      if target.Some? {
        var t := target.value;
        targetVideos := targetVideos[t := (if t in targetVideos then targetVideos[t] else {}) + {v}];
        if (t, v) !in firstSeen {
          firstSeen := firstSeen[(t, v) := now];
        }
      }
    }

    method UpdateSource(id: Id, owner: Option<Id>, enabled: Option<bool>, config: Option<Config>, now: int)
        returns (found: bool)
      requires Valid()
      modifies this
      ensures Valid()
      ensures var updated := Sources.UpdateSource(old(Snapshot()), id, owner, enabled, config, now);
              found == updated.Success? && Snapshot() == Resulting(old(Snapshot()), updated)
    {
      EditingKeeps(Snapshot(), id, owner, enabled, config, now);
      found := ApplyUpdate(id, owner, enabled, config, now);
    }

    method ApplyUpdate(id: Id, owner: Option<Id>, enabled: Option<bool>, config: Option<Config>, now: int) returns (found: bool)
      modifies this
      ensures var updated := Sources.UpdateSource(old(Snapshot()), id, owner, enabled, config, now);
              found == updated.Success? && Snapshot() == Resulting(old(Snapshot()), updated)
    {
      if OwnSubscriptionOf(subscriptions, id, owner) {
        var sub := subscriptions[id];
        subscriptions := subscriptions[id := sub.(enabled := enabled.GetOr(sub.enabled))];
        SyncPinForTarget(sub.target, now);
        return true;
      }
      if id in subscriptions || !OwnSourceOf(sources, id, owner) {
        return false;
      }
      sources := sources[id := sources[id].(config := config.GetOr(sources[id].config))];
      found := true;
    }

    static predicate OwnSourceOf(sources: map<Id, Source>, id: Id, owner: Option<Id>) {
      id in sources && (owner.Some? ==> sources[id].target.None? && (sources[id].owner.None? || sources[id].owner == owner))
    }

    /** Removes a subscription, a legacy source, or a target nobody subscribes to. */
    method DeleteSource(id: Id, owner: Option<Id>, now: int) returns (found: bool)
      requires Valid()
      requires Enabled(Snapshot(), RemoveSourceById(id, owner), now)
      modifies this
      ensures Valid()
      ensures var removed := Sources.DeleteSource(old(Snapshot()), id, owner, now);
              found == removed.Success? && Snapshot() == Resulting(old(Snapshot()), removed)
    {
      RemovingKeeps(Snapshot(), id, owner, now);
      found := ApplyDelete(id, owner, now);
    }

    method ApplyDelete(id: Id, owner: Option<Id>, now: int) returns (found: bool)
      modifies this
      ensures var removed := Sources.DeleteSource(old(Snapshot()), id, owner, now);
              found == removed.Success? && Snapshot() == Resulting(old(Snapshot()), removed)
    {
      if OwnSubscriptionOf(subscriptions, id, owner) {
        Unsubscribe(id, now);
        return true;
      }
      if id in subscriptions || !OwnSourceOf(sources, id, owner) {
        return false;
      }
      var target := sources[id].target;
      if target.None? {
        sources := sources - {id};
        jobs := map j | j in jobs && jobs[j].source != id :: jobs[j];
        found := true;
      } else if target.value in targets {
        DropTarget(target.value);
        found := true;
      } else {
        found := false;
      }
    }

    method Unsubscribe(id: Id, now: int)
      requires id in subscriptions
      modifies this`requests, this`subscriptions, this`subscriptionIds, this`pins
      ensures Snapshot() == DeleteSubscription(old(Snapshot()), id, now)
    {
      var sub := subscriptions[id];
      requests := ReplaceEach(requests, (r: Request) =>
        if r.subscription == Some(id) then r.(subscription := None, key := None) else r);
      assert requests == UnsubscribedAll(old(requests), id);
      subscriptions := subscriptions - {id};
      subscriptionIds := subscriptionIds - {(sub.user, sub.target)};
      SyncPinForTarget(sub.target, now);
    }

    method DropTarget(t: Id)
      requires t in targets
      modifies this
      ensures Snapshot() == RemoveTarget(old(Snapshot()), t)
    {
      RemovedInSteps(Snapshot(), t);
      DropWorkers(t);
      DropRecords(t);
      keys := keys - {(targets[t].kind, targets[t].key)};
      targets := targets - {t};
      targetVideos := targetVideos - {t};
      pins := pins - {t};
    }

    /** The target's sources and every job that works for one of them. */
    method DropWorkers(t: Id)
      modifies this`sources, this`jobs
      ensures Snapshot() == WithoutWorkers(old(Snapshot()), t)
    {
      var gone := set s | s in sources && sources[s].target == Some(t);
      jobs := map j | j in jobs && jobs[j].source !in gone :: jobs[j];
      sources := map s | s in sources && s !in gone :: sources[s];
    }

    method DropRecords(t: Id)
      modifies this`firstSeen, this`aliases, this`requests
      ensures Snapshot() == WithoutRecords(old(Snapshot()), t)
    {
      firstSeen := map p | p in firstSeen && p.0 != t :: firstSeen[p];
      aliases := map a | a in aliases && aliases[a] != t :: aliases[a];
      requests := map r | r in requests && requests[r].target != t :: requests[r];
    }

    // ---- submissions -----------------------------------------------------------------------

    /** Accepts a collection request, or finds the earlier one it repeats. */
    method SubmitCollectionRequest(sub: Submission, ids: Choices, now: int)
        returns (request: Id, replayed: bool, ghost choices: Choices)
      requires Valid() && UnusedChoices(Snapshot(), ids)
      modifies this
      ensures Valid()
      ensures choices == ids.(primary := choices.primary)
      ensures replayed ==> Snapshot() == old(Snapshot())
                           && IsReplay(Snapshot(), request, sub, TargetFor(Snapshot(), sub, ids.target))
      ensures !replayed ==>
                && request == ids.request
                && NoReplay(old(Snapshot()), sub, TargetFor(old(Snapshot()), sub, ids.target))
                && FreshChoices(old(Snapshot()), sub, choices)
                && Snapshot() == Submit(old(Snapshot()), sub, choices, now)
    {
      ghost var before := Snapshot();
      Coverage.CoreIsLinked(before);
      request, replayed, choices := Accept(sub, ids, now);
      if !replayed {
        SubmittingKeeps(before, sub, choices, now);
      }
    }

    /** What accepting relies on. */
    ghost predicate Consistent()
      reads this
    {
      && KeysOk(targets, keys) && AliasesOk(targets, aliases) && OneActive(jobs)
      && (forall r :: r in requests ==> requests[r].target in targets)
      && JobsHaveSources() && IndexFinds()
    }

    ghost predicate JobsHaveSources()
      reads this`jobs, this`sources
    {
      forall j :: j in jobs ==> jobs[j].source in sources
    }

    ghost predicate IndexFinds()
      reads this`subscriptionIds, this`subscriptions
    {
      forall p :: p in subscriptionIds ==> subscriptionIds[p] in subscriptions && PairOf(subscriptions[subscriptionIds[p]]) == p
    }

    /** The target, the replay check, the names and the worker source; then the rest. */
    method Accept(sub: Submission, ids: Choices, now: int) returns (request: Id, replayed: bool, ghost choices: Choices)
      requires Consistent() && ids.target !in targets
      modifies this
      ensures choices == ids.(primary := choices.primary)
      ensures replayed ==> Snapshot() == old(Snapshot())
                           && IsReplay(Snapshot(), request, sub, TargetFor(Snapshot(), sub, ids.target))
      ensures !replayed ==>
                && request == ids.request
                && NoReplay(old(Snapshot()), sub, TargetFor(old(Snapshot()), sub, ids.target))
                && IsPrimary(old(Snapshot()), TargetFor(old(Snapshot()), sub, ids.target), choices.primary)
                && Snapshot() == Submit(old(Snapshot()), sub, choices, now)
    {
      choices := ids;
      var t, replay := PlaceOrReplay(sub, ids.target);
      replayed := replay.Some?;
      if replayed {
        request := replay.value;
      } else {
        request := ids.request;
        var primary := AcceptNew(sub, ids, t, now);
        choices := ids.(primary := primary);
      }
    }

    /** The target, and the earlier request this one repeats, if there is one. */
    method PlaceOrReplay(sub: Submission, newTarget: Id) returns (t: Id, replay: Option<Id>)
      requires KeysOk(targets, keys) && AliasesOk(targets, aliases) && newTarget !in targets
      requires forall r :: r in requests ==> requests[r].target in targets
      modifies this`targets, this`keys
      ensures t == TargetFor(old(Snapshot()), sub, newTarget) && t in targets
      ensures replay.Some? ==> Snapshot() == old(Snapshot()) && IsReplay(Snapshot(), replay.value, sub, t)
      ensures replay.None? ==> Snapshot() == WithTarget(old(Snapshot()), sub, newTarget) && NoReplay(old(Snapshot()), sub, t)
    {
      ghost var before := Snapshot();
      t := EnsureTarget(sub, newTarget);
      replay := FindReplay(requests, sub, t);
      assert requests == before.requests;
      ReplayByRequests(before, sub, t, newTarget, replay);
    }

    /** Everything but the target itself, for a request seen for the first time. */
    method AcceptNew(sub: Submission, ids: Choices, t: Id, now: int) returns (primary: Option<Id>)
      requires t in targets && OneActive(jobs) && JobsHaveSources() && IndexFinds()
      modifies this
      ensures IsPrimary(old(Snapshot()), t, primary)
      ensures var named := WithAliases(old(Snapshot()), sub, t);
              Snapshot() == Configured(WithSource(named, sub, t, ids.source, primary, now), sub, t, primary.GetOr(ids.source),
                                       ids.(primary := primary), now)
    {
      aliases := NameTarget(aliases, sub.kind, sub.aliases, t);
      primary := EnsureSource(sub, t, ids.source, now);
      Configure(sub, t, primary.GetOr(ids.source), ids.(primary := primary), now);
    }

    /** The target the request names, or a new one. */
    method EnsureTarget(sub: Submission, newTarget: Id) returns (t: Id)
      requires KeysOk(targets, keys) && AliasesOk(targets, aliases)
      modifies this`targets, this`keys
      ensures t == TargetFor(old(Snapshot()), sub, newTarget) && t in targets
      ensures Snapshot() == WithTarget(old(Snapshot()), sub, newTarget)
    {
      FoundTargetFits(Snapshot(), sub);
      var found := LookUp(aliases, keys, sub);
      t := found.GetOr(newTarget);
      if found.None? {
        targets := targets[t := Target(sub.kind, sub.key, sub.config, NO_COVERAGE)];
        keys := keys[(sub.kind, sub.key) := t];
      }
    }

    /** The target's worker source, created when it has none. */
    method EnsureSource(sub: Submission, t: Id, newSource: Id, now: int) returns (primary: Option<Id>)
      modifies this`sources
      ensures IsPrimary(old(Snapshot()), t, primary) && primary.GetOr(newSource) in sources
      ensures Snapshot() == WithSource(old(Snapshot()), sub, t, newSource, primary, now)
      ensures forall s :: s in old(sources) ==> s in sources
    {
      primary := FindPrimary(sources, requests, t);
      if primary.None? {
        sources := sources[newSource := Source(sub.kind, sub.config, Some(t), None, now)];
      }
    }

    /** A replay is found among the requests, and then its target was there before. */
    static lemma ReplayByRequests(st: Store, sub: Submission, t: Id, newTarget: Id, replay: Option<Id>)
      requires t == TargetFor(st, sub, newTarget) && newTarget !in st.targets
      requires forall r :: r in st.requests ==> st.requests[r].target in st.targets
      requires replay.Some? ==> IsReplay(EMPTY.(requests := st.requests), replay.value, sub, t)
      requires replay.None? ==> forall o :: !IsReplay(EMPTY.(requests := st.requests), o, sub, t)
      ensures replay.Some? ==> IsReplay(st, replay.value, sub, t) && WithTarget(st, sub, newTarget) == st
      ensures replay.None? ==> NoReplay(st, sub, t)
    {
      if replay.None? {
        forall o ensures !IsReplay(st, o, sub, t) {
          assert !IsReplay(EMPTY.(requests := st.requests), o, sub, t);
        }
      }
    }

    /** The merged config, the subscription, and the answer. */
    method Configure(sub: Submission, t: Id, s: Id, ids: Choices, now: int)
      requires t in targets && s in sources && OneActive(jobs) && JobsHaveSources() && IndexFinds()
      modifies this
      ensures Snapshot() == Configured(old(Snapshot()), sub, t, s, ids, now)
    {
      var prior := sources[s].config;
      var merged := Merge(sub.kind, prior, targets[t].config);
      merged := Merge(sub.kind, merged, sub.config);
      sources := sources[s := sources[s].(config := merged)];
      targets := targets[t := targets[t].(config := merged)];
      assert Snapshot() == WithConfig(old(Snapshot()), sub, t, s);
      if sub.owner.Some? {
        var _ := Subscribe(sub.owner.value, t, ids.subscription, now);
      }
      AnswerRequest(sub, t, s, prior, ids.request, ids.job, now);
    }

    /** One of the five answers. */
    method AnswerRequest(sub: Submission, t: Id, s: Id, prior: Config, newRequest: Id, newJob: Id, now: int)
      requires t in targets && s in sources && OneActive(jobs) && JobsHaveSources()
      modifies this`jobs, this`requests
      ensures Snapshot() == WithRequest(old(Snapshot()), sub, t, s, prior, newRequest, newJob, now)
    {
      var desired := Desired(sub.kind, sub.config);
      var active := FindActive(jobs, t);
      SameActive(jobs, active, t);
      var subscription :=
        if sub.owner.Some? && (sub.owner.value, t) in subscriptionIds then Some(subscriptionIds[(sub.owner.value, t)])
        else None;
      var request := Request(t, s, sub.config, sub.idempotencyKey, None, Waiting, sub.owner, subscription);
      if !sub.forceRefresh && Satisfies(targets[t].coverage, desired) {
        request := request.(status := Ended(COMPLETED));
      } else if active.Some? && Satisfies(JobCoverage(jobs[active.value].scope, sub.kind, prior), desired) {
        request := request.(job := active, status := Joined);
      } else if active.Some? && jobs[active.value].state == QUEUED {
        var scope := ScopeOf(sub.kind, sources[jobs[active.value].source].config);
        jobs := jobs[active.value := jobs[active.value].(scope := scope)];
        request := request.(job := active);
      } else if active.None? {
        jobs := jobs[newJob := NewTargetJob(sources[s], s, t, now)];
        request := request.(job := Some(newJob));
      }
      requests := requests[newRequest := request];
    }

    static lemma SameActive(jobs: JobMap, active: Option<Id>, t: Id)
      requires OneActive(jobs)
      requires active.Some? ==> IsActive(jobs, active.value, t)
      requires active.None? ==> !HasActive(jobs, t)
      ensures active == ActiveJob(jobs, t)
    {
      if active.Some? {
        assert HasActive(jobs, t);
      }
    }

    // ---- promotion -------------------------------------------------------------------------

    /** Gives the source's target its channel id, merging it into the target that has it already. */
    method PromoteChannelTarget(source: Id, channelId: string, handle: Option<string>, now: int) returns (target: Option<Id>)
      requires Valid()
      modifies this
      ensures Valid()
      ensures target == Survivor(old(Snapshot()), source, channelId)
      ensures Snapshot() == Promote(old(Snapshot()), source, channelId, handle, now)
    {
      PromoteKeeps(Snapshot(), source, channelId, handle, now);
      target := FindSurvivor(source, channelId);
      if target.Some? {
        ApplyPromotion(sources[source].target.value, target.value, channelId, handle, now);
      }
    }

    method FindSurvivor(source: Id, channelId: string) returns (target: Option<Id>)
      requires KeysOk(targets, keys)
      ensures target == Survivor(Snapshot(), source, channelId)
      ensures target.Some? ==> target.value in targets && sources[source].target.value in targets
    {
      if source !in sources || sources[source].target.None? || sources[source].target.value !in targets {
        return None;
      }
      var cur := sources[source].target.value;
      if !targets[cur].kind.Channel? {
        return None;
      }
      SurvivorFits(Snapshot(), source, channelId);
      var key := (Channel, "channel:" + channelId);
      target := Some(if key in keys then keys[key] else cur);
    }

    method ApplyPromotion(cur: Id, tgt: Id, channelId: string, handle: Option<string>, now: int)
      requires cur in targets && tgt in targets && Indexed(subscriptions, subscriptionIds)
      modifies this
      ensures Snapshot() ==
              if tgt != cur then
                WithChannelAliases(SyncPin(Merged(old(Snapshot()), cur, tgt), tgt, now), tgt, channelId, handle)
              else WithChannelAliases(Renamed(old(Snapshot()), cur, CanonicalKey(channelId)), cur, channelId, handle)
    {
      if tgt != cur {
        MergeTargets(cur, tgt, now);
      } else {
        var key := "channel:" + channelId;
        keys := (keys - {(targets[cur].kind, targets[cur].key)})[(Channel, key) := cur];
        targets := targets[cur := targets[cur].(key := key)];
      }
      aliases := aliases[Alias(Channel, "channel_id", channelId) := tgt];
      if handle.Some? && handle.value != "" {
        aliases := aliases[Alias(Channel, "handle", handle.value) := tgt];
      }
    }

    /** Moves everything that names one target to another, and retires it. */
    method MergeTargets(cur: Id, tgt: Id, now: int)
      requires cur in targets && cur != tgt && Indexed(subscriptions, subscriptionIds)
      modifies this
      ensures Snapshot() == SyncPin(Merged(old(Snapshot()), cur, tgt), tgt, now)
    {
      MergedInSteps(Snapshot(), cur, tgt);
      MovePeople(cur, tgt);
      MoveWork(cur, tgt);
      MoveMembers(cur, tgt);
      RetireTarget(cur, tgt);
      SyncPinForTarget(tgt, now);
    }

    /** Subscriptions, and the requests that were made through them. */
    method MovePeople(cur: Id, tgt: Id)
      requires cur != tgt && Indexed(subscriptions, subscriptionIds)
      modifies this`subscriptions, this`subscriptionIds, this`requests
      ensures Snapshot() == MergePeople(old(Snapshot()), cur, tgt)
    {
      var newSubscriptions, newIds, absorbed := MergeSubscribers(subscriptions, subscriptionIds, cur, tgt);
      var newRequests := MoveEachRequest(requests, absorbed, cur, tgt, subscriptions, subscriptionIds);
      subscriptions, subscriptionIds, requests := newSubscriptions, newIds, newRequests;
    }

    /** Sources, jobs and names. */
    method MoveWork(cur: Id, tgt: Id)
      modifies this`sources, this`jobs, this`aliases
      ensures Snapshot() == MergeWork(old(Snapshot()), cur, tgt)
    {
      var newSources := MoveEachSource(sources, cur, tgt);
      var newJobs := MoveEachJob(jobs, cur, tgt);
      var newAliases := MoveEachAlias(aliases, cur, tgt);
      sources, jobs, aliases := newSources, newJobs, newAliases;
    }

    /** The memberships of both targets, each video with its earlier first-seen time. */
    method MoveMembers(cur: Id, tgt: Id)
      requires cur != tgt
      modifies this`targetVideos, this`firstSeen
      ensures Snapshot() == MergeMembers(old(Snapshot()), cur, tgt)
    {
      var moving := if cur in targetVideos then targetVideos[cur] else {};
      var newSeen := MoveSeen(targetVideos, firstSeen, cur, tgt);
      firstSeen := newSeen;
      targetVideos := (targetVideos - {cur})[tgt := (if tgt in targetVideos then targetVideos[tgt] else {}) + moving];
    }

    /** The pin moves unless the surviving target has one; the key and the target go. */
    method RetireTarget(cur: Id, tgt: Id)
      requires cur in targets
      modifies this`pins, this`keys, this`targets
      ensures Snapshot() == Retire(old(Snapshot()), cur, tgt)
    {
      if cur in pins && tgt !in pins {
        pins := (pins - {cur})[tgt := pins[cur]];
      } else {
        pins := pins - {cur};
      }
      keys := keys - {(targets[cur].kind, targets[cur].key)};
      targets := targets - {cur};
    }

    // ---- due pins --------------------------------------------------------------------------

    method DispatchOne(t: Id, newJob: Id, now: int) returns (started: bool, ghost primary: Option<Id>)
      requires t in pins && newJob !in jobs
      modifies this`pins, this`jobs
      ensures IsPrimary(old(Snapshot()), t, primary)
      ensures Snapshot() == DispatchPin(old(Snapshot()), t, newJob, primary, now)
      ensures |jobs| == |old(jobs)| + if started then 1 else 0
      ensures pins.Keys == old(pins).Keys && jobs.Keys <= old(jobs).Keys + {newJob}
      ensures forall o :: o in pins && o != t ==> pins[o] == old(pins)[o]
    {
      var found := FindPrimary(sources, requests, t);
      primary := found;
      var wanted := AnyEnabled(subscriptions, t);
      var active := FindActive(jobs, t);
      var dispatch :=
        if !wanted then SwitchOff
        else if active.Some? || found.None? || found.value !in sources then Postpone
        else StartFor(found.value);
      assert dispatch == DispatchFor(Snapshot(), t, primary);
      started := ApplyDispatch(t, dispatch, newJob, now);
    }

    method ApplyDispatch(t: Id, dispatch: Dispatch, newJob: Id, now: int) returns (started: bool)
      requires t in pins && newJob !in jobs
      modifies this`pins, this`jobs
      ensures Snapshot() == Dispatched(old(Snapshot()), t, dispatch, newJob, now)
      ensures |jobs| == |old(jobs)| + if started then 1 else 0
      ensures pins.Keys == old(pins).Keys && jobs.Keys <= old(jobs).Keys + {newJob}
      ensures forall o :: o in pins && o != t ==> pins[o] == old(pins)[o]
    {
      started := false;
      var pin := pins[t];
      match dispatch
      case SwitchOff => pins := pins[t := pin.(enabled := false)];
      case Postpone => pins := pins[t := pin.(nextRun := now + 60 * pin.interval)];
      case StartFor(s) =>
        if s in sources {
          jobs := jobs[newJob := NewTargetJob(sources[s], s, t, now)];
          pins := pins[t := pin.(lastDispatched := Some(now), nextRun := now + 60 * pin.interval)];
          started := true;
        }
    }

    static ghost predicate StillUnused(jobIds: seq<Id>, used: nat, jobs: set<Id>) {
      forall k :: used <= k < |jobIds| ==> jobIds[k] !in jobs
    }

    /** Dispatches the due pins, the longest overdue first, until the limit is reached: a run of single
        dispatches, one for each due pin unless the limit cuts it short, and as many new jobs as it
        reports. */
    method DispatchDuePins(jobIds: seq<Id>, limit: nat, now: int)
        returns (dispatched: nat, ghost steps: seq<Step>, ghost order: seq<Id>)
      requires Valid() && UnusedIds(jobs, jobIds) && |jobIds| >= |pins.Keys|
      modifies this`pins, this`jobs
      ensures Valid()
      ensures dispatched <= limit && |jobs| == |old(jobs)| + dispatched
      ensures RunsTo(old(Snapshot()), steps, Snapshot()) && AllDispatches(steps, order, now)
      ensures InTurn(old(pins), order, {}, now, dispatched == limit)
    {
      ghost var before := Snapshot();
      dispatched, steps, order := DispatchEach(jobIds, limit, now);
      EveryRunKeepsTheStoreWellFormed(before, steps);
    }

    method DispatchEach(jobIds: seq<Id>, limit: nat, now: int)
        returns (dispatched: nat, ghost steps: seq<Step>, ghost order: seq<Id>)
      requires NoDuplicates(jobIds) && StillUnused(jobIds, 0, jobs.Keys) && |jobIds| >= |pins.Keys|
      modifies this`pins, this`jobs
      ensures dispatched <= limit && |jobs| == |old(jobs)| + dispatched
      ensures RunsTo(old(Snapshot()), steps, Snapshot()) && AllDispatches(steps, order, now)
      ensures InTurn(old(pins), order, {}, now, dispatched == limit)
    {
      ghost var before := Snapshot();
      dispatched, steps, order := 0, [], [];
      var original := pins;
      var rest := pins.Keys;
      var used: nat := 0;
      while rest != {}
        invariant rest <= original.Keys && used + |rest| <= |jobIds| && dispatched <= limit
        invariant |jobs| == |old(jobs)| + dispatched
        invariant StillUnused(jobIds, used, jobs.Keys) && Untouched(original, rest)
        invariant RunsTo(before, steps, Snapshot()) && AllDispatches(steps, order, now)
        invariant InTurn(original, order, rest, now, dispatched == limit)
        decreases rest
      {
        var t := FindEarliest(original, rest);
        ghost var others := rest - {t};
        assert |others| == |rest| - 1;
        var taken, started;
        taken, started, steps, order := HandlePin(t, jobIds, used, limit, dispatched, now, before, original, rest,
          steps, order);
        used := used + if taken then 1 else 0;
        dispatched := dispatched + if started then 1 else 0;
        rest := rest - {t};
      }
    }

    /** Pins that are still to be handled are as they were. */
    ghost predicate Untouched(original: map<Id, Pin>, rest: set<Id>)
      reads this`pins
    {
      pins.Keys == original.Keys && forall o :: o in rest && o in pins ==> pins[o] == original[o]
    }

    /** The turn of one pin: it is dispatched if it is due and the limit allows. */
    method HandlePin(t: Id, jobIds: seq<Id>, used: nat, limit: nat, dispatched: nat, now: int, ghost before: Store,
                     ghost original: map<Id, Pin>, ghost rest: set<Id>, ghost steps: seq<Step>, ghost order: seq<Id>)
        returns (taken: bool, started: bool, ghost longer: seq<Step>, ghost newOrder: seq<Id>)
      requires NoDuplicates(jobIds) && used < |jobIds| && StillUnused(jobIds, used, jobs.Keys)
      requires dispatched <= limit && t in rest && rest <= original.Keys && Untouched(original, rest)
      requires forall o :: o in rest ==> original[t].nextRun <= original[o].nextRun
      requires RunsTo(before, steps, Snapshot()) && AllDispatches(steps, order, now)
      requires InTurn(original, order, rest, now, dispatched == limit)
      modifies this`pins, this`jobs
      ensures started ==> taken && dispatched < limit
      ensures |jobs| == |old(jobs)| + if started then 1 else 0
      ensures StillUnused(jobIds, if taken then used + 1 else used, jobs.Keys) && Untouched(original, rest - {t})
      ensures RunsTo(before, longer, Snapshot()) && AllDispatches(longer, newOrder, now)
      ensures InTurn(original, newOrder, rest - {t}, now, dispatched + (if started then 1 else 0) == limit)
    {
      taken, started, longer, newOrder := dispatched < limit && pins[t].enabled && pins[t].nextRun <= now, false, steps, order;
      if taken {
        started, longer := DispatchStep(t, jobIds, used, now, before, steps, order);
        newOrder := order + [t];
        TurnTaken(original, order, rest, t, now, dispatched + (if started then 1 else 0) == limit);
      } else {
        TurnPassed(original, order, rest, t, now, dispatched == limit);
      }
    }

    /** One dispatch, added to the run so far. */
    method DispatchStep(t: Id, jobIds: seq<Id>, used: nat, now: int, ghost before: Store, ghost steps: seq<Step>,
                        ghost order: seq<Id>)
        returns (started: bool, ghost longer: seq<Step>)
      requires NoDuplicates(jobIds) && used < |jobIds| && StillUnused(jobIds, used, jobs.Keys)
      requires t in pins && pins[t].enabled && pins[t].nextRun <= now
      requires RunsTo(before, steps, Snapshot()) && AllDispatches(steps, order, now)
      modifies this`pins, this`jobs
      ensures RunsTo(before, longer, Snapshot()) && AllDispatches(longer, order + [t], now)
      ensures |jobs| == |old(jobs)| + if started then 1 else 0
      ensures pins.Keys == old(pins).Keys && StillUnused(jobIds, used + 1, jobs.Keys)
      ensures forall o :: o in pins && o != t ==> pins[o] == old(pins)[o]
    {
      ghost var primary;
      started, primary := DispatchOne(t, jobIds[used], now);
      longer := steps + [Step(DispatchDue(t, jobIds[used], primary), now)];
      DispatchAppends(before, steps, order, old(Snapshot()), t, jobIds[used], primary, now);
      UsedOne(jobIds, used, old(jobs).Keys, jobs.Keys);
    }

    static lemma UsedOne(jobIds: seq<Id>, used: nat, before: set<Id>, after: set<Id>)
      requires NoDuplicates(jobIds) && used < |jobIds| && StillUnused(jobIds, used, before) && after <= before + {jobIds[used]}
      ensures StillUnused(jobIds, used + 1, after)
    {
    }
  }
}
