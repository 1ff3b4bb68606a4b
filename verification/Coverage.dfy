/** A completed job covers every request attached to it, on targets with one worker source:
    apps/api/monitube_api/collection_policy.py as used by memory_jobs.py */
module Coverage {
  import opened Common
  import opened CollectionPolicy
  import opened Jobs
  import opened Store
  import opened Sources
  import opened Lifecycle
  import opened Submission
  import opened Promotion

  /** What the request contract guarantees of a config: every limit that counts is at least 1. */
  predicate Limited(kind: SourceType, c: Config) {
    && HasLimit(kind, c)
    && Or(c.maxCommentPages, 1) >= 1
    && (kind.Keyword? ==> Or(c.maxPagesPerRun, 1) >= 1)
  }

  ghost predicate ConfigsOk(targets: map<Id, Target>, sources: map<Id, Source>, requests: map<Id, Request>) {
    && (forall s, t :: Backs(sources, s, t) ==> Limited(sources[s].kind, sources[s].config))
    && (forall t :: t in targets ==> Limited(targets[t].kind, targets[t].config))
    && (forall r :: r in requests && requests[r].target in targets ==>
      Limited(targets[requests[r].target].kind, requests[r].config))
  }

  /** The only source of a target; a merge may leave a target with several. */
  ghost predicate Sole(sources: map<Id, Source>, s: Id, t: Id) {
    Backs(sources, s, t) && forall x :: Backs(sources, x, t) ==> x == s
  }

  predicate AsksAsMuch(source: Source, r: Request) {
    Covers(Desired(source.kind, source.config), Desired(source.kind, r.config))
  }

  /** The source of a target asks for at least what each of its requests asked for. */
  ghost predicate Wide(sources: map<Id, Source>, requests: map<Id, Request>) {
    forall r, s :: r in requests && Sole(sources, s, requests[r].target) ==> AsksAsMuch(sources[s], requests[r])
  }

  predicate ScopeSet(kind: SourceType, scope: Scope) {
    Or(scope.maxCommentPages, 0) != 0 && (kind.Channel? ==> Or(scope.maxVideos, 0) != 0)
  }

  predicate JobCovers(source: Source, job: Job, r: Request) {
    && ScopeSet(source.kind, job.scope)
    && Covers(JobCoverage(job.scope, source.kind, source.config), Desired(source.kind, r.config))
  }

  predicate WorksFor(jobs: JobMap, r: Request) {
    r.job.Some? && r.job.value in jobs && jobs[r.job.value].target == Some(r.target)
  }

  /** If it completed now, each job would cover the requests attached to it. */
  ghost predicate JobsWide(sources: map<Id, Source>, requests: map<Id, Request>, jobs: JobMap) {
    forall r, s :: r in requests && WorksFor(jobs, requests[r]) && Sole(sources, s, requests[r].target) ==>
      JobCovers(sources[s], jobs[requests[r].job.value], requests[r])
  }

  ghost predicate CoverInv(st: Store) {
    && ConfigsOk(st.targets, st.sources, st.requests)
    && Wide(st.sources, st.requests)
    && JobsWide(st.sources, st.requests, st.jobs)
  }

  // ---- configs -------------------------------------------------------------------------------

  /** Merging two more configs into a source's still asks for all it asked for. */
  lemma WidenedAsks(kind: SourceType, prior: Config, target: Config, incoming: Config)
    requires Limited(kind, prior) && Limited(kind, target) && Limited(kind, incoming)
    ensures var merged := Merge(kind, Merge(kind, prior, target), incoming);
            && Limited(kind, merged) && Widens(kind, prior, merged)
            && Covers(Desired(kind, merged), Desired(kind, prior))
            && Covers(Desired(kind, merged), Desired(kind, incoming))
  {
    var once := Merge(kind, prior, target);
    var merged := Merge(kind, once, incoming);
    MergeCoversCurrent(kind, prior, target);
    MergeCoversCurrent(kind, once, incoming);
    MergeCoversIncoming(kind, once, incoming);
    CoversTransitive(Desired(kind, merged), Desired(kind, once), Desired(kind, prior));
  }

  /** A job scoped to its source's config covers whatever the source asks for. */
  lemma NewScopeCovers(source: Source, job: Job, r: Request)
    requires job.scope == ScopeOf(source.kind, source.config) && AsksAsMuch(source, r)
    ensures JobCovers(source, job, r)
  {
    ScopeCoversConfig(source.kind, source.config);
  }

  // ---- steps that leave configs and scopes alone ------------------------------------------------

  /** Same target, same config; at most the job differs. */
  predicate SameWish(a: Request, b: Request) {
    a.target == b.target && a.config == b.config
  }

  ghost predicate SameScopes(jobs: JobMap, after: JobMap) {
    forall j :: j in jobs && j in after ==>
      after[j].scope == jobs[j].scope && (after[j].target.Some? ==> after[j].target == jobs[j].target)
  }

  lemma JobsUntouchedKeep(sources: map<Id, Source>, requests: map<Id, Request>, jobs: JobMap, after: JobMap)
    requires JobsWide(sources, requests, jobs) && SameScopes(jobs, after)
    requires forall r :: r in requests && requests[r].job.Some? ==> requests[r].job.value in jobs
    ensures JobsWide(sources, requests, after)
  {
  }

  /** Requests may lose their key or subscription, or end, or be dropped. */
  ghost predicate FewerWishes(requests: map<Id, Request>, after: map<Id, Request>) {
    forall r :: r in after ==> r in requests && SameWish(requests[r], after[r]) && after[r].job == requests[r].job
  }

  lemma RequestsUntouchedKeep(st: Store, requests: map<Id, Request>)
    requires CoverInv(st) && FewerWishes(st.requests, requests)
    ensures CoverInv(st.(requests := requests))
  {
  }

  lemma SameSole(sources: map<Id, Source>, after: map<Id, Source>, s: Id, t: Id)
    requires SameBacking(sources, after)
    ensures Sole(after, s, t) <==> Sole(sources, s, t)
  {
    forall x ensures Backs(after, x, t) <==> Backs(sources, x, t) {
    }
  }

  /** Sources without a target are nobody's. */
  ghost predicate SameBacked(sources: map<Id, Source>, after: map<Id, Source>) {
    forall s, t :: Backs(sources, s, t) || Backs(after, s, t) ==> s in sources && s in after && after[s] == sources[s]
  }

  lemma BackedUntouchedKeep(st: Store, sources: map<Id, Source>)
    requires CoverInv(st) && SameBacked(st.sources, sources)
    ensures CoverInv(st.(sources := sources))
  {
    forall s, t ensures Backs(sources, s, t) <==> Backs(st.sources, s, t) {
    }
    forall s, t ensures Sole(sources, s, t) <==> Sole(st.sources, s, t) {
    }
  }

  // ---- ending a job --------------------------------------------------------------------------------

  /** The successor is scoped to the source, and the source asks for what every waiting request asked. */
  lemma AttachedIsCovered(sources: map<Id, Source>, requests: map<Id, Request>, jobs: JobMap, t: Id, j: Id)
    requires Wide(sources, requests) && JobsWide(sources, requests, jobs) && j in jobs
    requires jobs[j].source in sources && Backs(sources, jobs[j].source, t)
    requires jobs[j].scope == ScopeOf(sources[jobs[j].source].kind, sources[jobs[j].source].config)
    ensures Wide(sources, Attached(requests, t, j)) && JobsWide(sources, Attached(requests, t, j), jobs)
  {
    var after := Attached(requests, t, j);
    forall r, s | r in after && WorksFor(jobs, after[r]) && Sole(sources, s, after[r].target)
      ensures JobCovers(sources[s], jobs[after[r].job.value], after[r])
    {
      if Waits(requests[r], t) {
        assert AsksAsMuch(sources[s], requests[r]);
        NewScopeCovers(sources[s], jobs[j], after[r]);
      } else {
        assert WorksFor(jobs, requests[r]);
      }
    }
  }

  lemma AttachedConfigs(targets: map<Id, Target>, sources: map<Id, Source>, requests: map<Id, Request>, t: Id, j: Id)
    requires ConfigsOk(targets, sources, requests)
    ensures ConfigsOk(targets, sources, Attached(requests, t, j))
  {
  }

  lemma SuccessorCovers(st: Store, t: Id, newJob: Id, primary: Option<Id>, now: int)
    requires CoverInv(st) && newJob !in st.jobs && primary.Some? && Backs(st.sources, primary.value, t)
    requires forall r :: r in st.requests && st.requests[r].job.Some? ==> st.requests[r].job.value in st.jobs
    ensures CoverInv(StartSuccessor(st, t, newJob, primary, now))
  {
    if SomeWait(st.requests, t) {
      var jobs := st.jobs[newJob := TargetJob(st, t, primary.value, now)];
      JobsUntouchedKeep(st.sources, st.requests, st.jobs, jobs);
      AttachedIsCovered(st.sources, st.requests, jobs, t, newJob);
      AttachedConfigs(st.targets, st.sources, st.requests, t, newJob);
    }
  }

  lemma RecordingCovers(st: Store, job: Job, t: Id)
    requires CoverInv(st)
    ensures CoverInv(st.(targets := Recorded(st, job, t)))
  {
  }

  lemma SettlingCovers(st: Store, j: Id, state: JobState, changes: Changes)
    requires CoverInv(st) && j in st.jobs
    requires forall r :: r in st.requests && st.requests[r].job.Some? ==> st.requests[r].job.value in st.jobs
    ensures CoverInv(SettledStore(st, j, state, changes)) && CoverInv(MoveJob(st, j, state, changes))
  {
    var moved := MoveJob(st, j, state, changes);
    JobsUntouchedKeep(st.sources, st.requests, st.jobs, moved.jobs);
    RequestsUntouchedKeep(moved, Settled(st.requests, j, state));
  }

  lemma JobsKnown(st: Store)
    requires RequestsOk(st.targets, st.sources, st.subscriptions, st.jobs, st.requests)
    ensures forall r :: r in st.requests && st.requests[r].job.Some? ==> st.requests[r].job.value in st.jobs
  {
  }

  lemma EndingCovers(st: Store, j: Id, state: JobState, changes: Changes, newJob: Id, primary: Option<Id>, now: int)
    requires CoverInv(st) && j in st.jobs && newJob !in st.jobs
    requires forall r :: r in st.requests && st.requests[r].job.Some? ==> st.requests[r].job.value in st.jobs
    requires st.jobs[j].target.Some? ==> primary.Some? && Backs(st.sources, primary.value, st.jobs[j].target.value)
    ensures CoverInv(EndJob(SettledStore(st, j, state, changes), Moved(st.jobs[j], state, changes), newJob, primary, now))
  {
    var settled := SettledStore(st, j, state, changes);
    SettlingCovers(st, j, state, changes);
    if st.jobs[j].target.Some? && st.jobs[j].target.value in st.targets {
      var t := st.jobs[j].target.value;
      var job := Moved(st.jobs[j], state, changes);
      RecordingCovers(settled, job, t);
      SuccessorCovers(settled.(targets := Recorded(settled, job, t)), t, newJob, primary, now);
    }
  }

  lemma TransitionCovers(st: Store, j: Id, state: JobState, changes: Changes, newJob: Id, primary: Option<Id>, now: int)
    requires Inv(st) && CoverInv(st) && j in st.jobs && newJob !in st.jobs && PrimaryFor(st, st.jobs[j].target, primary)
    requires Transition(st, j, state, changes, newJob, primary, now).Success?
    ensures CoverInv(Transition(st, j, state, changes, newJob, primary, now).value)
  {
    JobsKnown(st);
    if st.jobs[j].target.Some? {
      TargetOfJob(st, j);
    }
    PrimaryExists(st, st.jobs[j].target, primary);
    if IsTerminal(state) && !IsTerminal(st.jobs[j].state) {
      EndingCovers(st, j, state, changes, newJob, primary, now);
    } else {
      SettlingCovers(st, j, state, changes);
    }
  }

  lemma RecordedByCompletion(st: Store, j: Id, changes: Changes, newJob: Id, primary: Option<Id>, now: int, t: Id)
    requires j in st.jobs && st.jobs[j].target == Some(t) && t in st.targets && st.jobs[j].source in st.sources
    requires st.jobs[j].state == RUNNING
    ensures Transition(st, j, COMPLETED, changes, newJob, primary, now).Success?
    ensures var after := Transition(st, j, COMPLETED, changes, newJob, primary, now).value;
            var source := st.sources[st.jobs[j].source];
            && t in after.targets
            && after.targets[t].coverage == Completed(JobCoverage(st.jobs[j].scope, source.kind, source.config))
  {
    var settled := SettledStore(st, j, COMPLETED, changes);
    SuccessorFrame(settled.(targets := Recorded(settled, Moved(st.jobs[j], COMPLETED, changes), t)), t, newJob, primary, now);
  }

  /** Completion covers its requests: when the job of a target with one source completes, the
      coverage recorded for the target satisfies every request attached to the job, however many
      wider requests came in before it started or while it ran. */
  lemma CompletionCovers(st: Store, j: Id, changes: Changes, newJob: Id, primary: Option<Id>, now: int, t: Id, s: Id, r: Id)
    requires Inv(st) && CoverInv(st) && j in st.jobs && newJob !in st.jobs && st.jobs[j].target == Some(t)
    requires CanMove(st.jobs[j].state, COMPLETED) && st.jobs[j].state != COMPLETED
    requires Sole(st.sources, s, t) && r in st.requests && st.requests[r].target == t && st.requests[r].job == Some(j)
    ensures Transition(st, j, COMPLETED, changes, newJob, primary, now).Success?
    ensures var after := Transition(st, j, COMPLETED, changes, newJob, primary, now).value;
            && t in after.targets && t in st.targets
            && Satisfies(after.targets[t].coverage, Desired(st.targets[t].kind, st.requests[r].config))
  {
    OnlyRunningCompletes(st.jobs[j].state);
    SoleWorker(st, j, t, s);
    RunningCompletionCovers(st, j, changes, newJob, primary, now, t, s, r);
  }

  /** In terms of work: the record of a completed job is complete, includes all the work that an attached
      request asks for, and nothing that the job did not do. */
  lemma CompletionRecordsWork(st: Store, j: Id, changes: Changes, newJob: Id, primary: Option<Id>, now: int, t: Id, s: Id,
                              r: Id)
    requires Inv(st) && CoverInv(st) && j in st.jobs && newJob !in st.jobs && st.jobs[j].target == Some(t)
    requires st.jobs[j].state == RUNNING
    requires Sole(st.sources, s, t) && r in st.requests && st.requests[r].target == t && st.requests[r].job == Some(j)
    ensures Transition(st, j, COMPLETED, changes, newJob, primary, now).Success?
    ensures var after := Transition(st, j, COMPLETED, changes, newJob, primary, now).value;
            && t in after.targets && t in st.targets
            && Collected(after.targets[t].coverage, st.targets[t].kind, st.requests[r].config)
            && RecordsWork(after.targets[t].coverage, st.jobs[j].scope, st.sources[s])
  {
    CompletionCovers(st, j, changes, newJob, primary, now, t, s, r);
    SoleWorker(st, j, t, s);
    RecordedByCompletion(st, j, changes, newJob, primary, now, t);
    var coverage := Transition(st, j, COMPLETED, changes, newJob, primary, now).value.targets[t].coverage;
    SatisfiedIsCollected(coverage, st.targets[t].kind, st.requests[r].config);
    CompletedIsDone(st.jobs[j].scope, st.sources[s]);
  }

  /** The coverage stands for exactly the work of a job with this scope for this source. */
  ghost predicate RecordsWork(coverage: Coverage, scope: Scope, source: Source) {
    forall w :: Includes(coverage, w) <==> DoneBy(scope, source.kind, source.config, w)
  }

  lemma CompletedIsDone(scope: Scope, source: Source)
    ensures RecordsWork(Completed(JobCoverage(scope, source.kind, source.config)), scope, source)
  {
    forall w ensures Includes(Completed(JobCoverage(scope, source.kind, source.config)), w)
                     <==> DoneBy(scope, source.kind, source.config, w) {
      JobCoverageIsDone(scope, source.kind, source.config, w);
    }
  }

  lemma OnlyRunningCompletes(state: JobState)
    requires CanMove(state, COMPLETED) && state != COMPLETED
    ensures state == RUNNING
  {
  }

  lemma RunningCompletionCovers(st: Store, j: Id, changes: Changes, newJob: Id, primary: Option<Id>, now: int, t: Id,
                                s: Id, r: Id)
    requires JobsWide(st.sources, st.requests, st.jobs)
    requires j in st.jobs && st.jobs[j].target == Some(t) && st.jobs[j].source == s && st.jobs[j].state == RUNNING
    requires t in st.targets && Sole(st.sources, s, t) && s in st.sources && st.targets[t].kind == st.sources[s].kind
    requires r in st.requests && st.requests[r].target == t && st.requests[r].job == Some(j)
    ensures Transition(st, j, COMPLETED, changes, newJob, primary, now).Success?
    ensures var after := Transition(st, j, COMPLETED, changes, newJob, primary, now).value;
            && t in after.targets
            && Satisfies(after.targets[t].coverage, Desired(st.targets[t].kind, st.requests[r].config))
  {
    RecordedByCompletion(st, j, changes, newJob, primary, now, t);
  }

  lemma SoleWorker(st: Store, j: Id, t: Id, s: Id)
    requires JobsOk(st.sources, st.jobs) && j in st.jobs && st.jobs[j].target == Some(t) && Sole(st.sources, s, t)
    ensures st.jobs[j].source == s
  {
    assert Backs(st.sources, st.jobs[j].source, t);
  }

  // ---- submitting ------------------------------------------------------------------------------------

  lemma TargetedCovers(st: Store, sub: Submission, newTarget: Id)
    requires CoverInv(st) && newTarget !in st.targets && Limited(sub.kind, sub.config)
    requires forall r :: r in st.requests ==> st.requests[r].target in st.targets
    ensures CoverInv(WithTarget(st, sub, newTarget))
  {
    if FindTarget(st, sub).None? {
    }
  }

  lemma NewSourceConfigs(targets: map<Id, Target>, sources: map<Id, Source>, requests: map<Id, Request>, s: Id, source: Source)
    requires ConfigsOk(targets, sources, requests) && s !in sources && Limited(source.kind, source.config)
    ensures ConfigsOk(targets, sources[s := source], requests)
  {
    var after := sources[s := source];
    forall x, u | Backs(after, x, u) ensures Limited(after[x].kind, after[x].config) {
      assert x != s ==> Backs(sources, x, u);
    }
  }

  /** A first source of a target nobody asked for yet. */
  lemma FirstSourceCovers(st: Store, s: Id, source: Source, t: Id)
    requires CoverInv(st) && s !in st.sources && source.target == Some(t) && Limited(source.kind, source.config)
    requires forall r :: r in st.requests ==> st.requests[r].target != t
    ensures CoverInv(st.(sources := st.sources[s := source]))
  {
    var after := st.sources[s := source];
    NewSourceConfigs(st.targets, st.sources, st.requests, s, source);
    forall x, u | u != t ensures Sole(after, x, u) <==> Sole(st.sources, x, u) {
      forall y ensures Backs(after, y, u) <==> Backs(st.sources, y, u) {
      }
    }
  }

  /** How one source changes when its config is widened: not at all, unless it is the one. */
  predicate WidenedFrom(before: Source, after: Source) {
    && after.kind == before.kind
    && Widens(before.kind, before.config, after.config)
    && Covers(Desired(before.kind, after.config), Desired(before.kind, before.config))
  }

  lemma ConfigWidens(st: Store, sub: Submission, t: Id, s: Id)
    requires ConfigsOk(st.targets, st.sources, st.requests) && t in st.targets && Backs(st.sources, s, t)
    requires st.sources[s].kind == sub.kind && st.targets[t].kind == sub.kind && Limited(sub.kind, sub.config)
    ensures var after := WithConfig(st, sub, t, s).sources;
            && WidenedFrom(st.sources[s], after[s]) && Limited(sub.kind, after[s].config)
            && Covers(Desired(sub.kind, after[s].config), Desired(sub.kind, sub.config))
            && forall x :: x in st.sources && x != s ==> after[x] == st.sources[x]
  {
    WidenedAsks(sub.kind, st.sources[s].config, st.targets[t].config, sub.config);
  }

  lemma WidenedRequest(before: Source, after: Source, job: Job, r: Request)
    requires WidenedFrom(before, after) || after == before
    ensures AsksAsMuch(before, r) ==> AsksAsMuch(after, r)
    ensures JobCovers(before, job, r) && Limited(before.kind, r.config) ==> JobCovers(after, job, r)
  {
    if after != before {
      if AsksAsMuch(before, r) {
      }
      if JobCovers(before, job, r) && Limited(before.kind, r.config) {
      }
    }
  }

  /** Sources that only widened. */
  ghost predicate SourcesWidened(sources: map<Id, Source>, after: map<Id, Source>) {
    && SameBacking(sources, after) && sources.Keys == after.Keys
    && forall x :: x in sources ==> WidenedFrom(sources[x], after[x]) || after[x] == sources[x]
  }

  lemma WidenedKeepsWide(sources: map<Id, Source>, after: map<Id, Source>, requests: map<Id, Request>)
    requires Wide(sources, requests) && SourcesWidened(sources, after)
    ensures Wide(after, requests)
  {
    forall r, x | r in requests && Sole(after, x, requests[r].target) ensures AsksAsMuch(after[x], requests[r]) {
      SameSole(sources, after, x, requests[r].target);
      var any: Job :| true;
      WidenedRequest(sources[x], after[x], any, requests[r]);
    }
  }

  lemma WidenedKeepsJobsWide(targets: map<Id, Target>, sources: map<Id, Source>, after: map<Id, Source>,
                             requests: map<Id, Request>, jobs: JobMap)
    requires JobsWide(sources, requests, jobs) && SourcesWidened(sources, after)
    requires ConfigsOk(targets, sources, requests) && SourcesOk(targets, sources)
    ensures JobsWide(after, requests, jobs)
  {
    forall r, x | r in requests && WorksFor(jobs, requests[r]) && Sole(after, x, requests[r].target)
      ensures JobCovers(after[x], jobs[requests[r].job.value], requests[r])
    {
      SameSole(sources, after, x, requests[r].target);
      assert Backs(sources, x, requests[r].target);
      WidenedRequest(sources[x], after[x], jobs[requests[r].job.value], requests[r]);
    }
  }

  lemma WidenedConfigs(targets: map<Id, Target>, sources: map<Id, Source>, requests: map<Id, Request>, t: Id,
                       target: Target, s: Id, source: Source)
    requires ConfigsOk(targets, sources, requests) && t in targets && s in sources
    requires target.kind == targets[t].kind && Limited(target.kind, target.config)
    requires source.target == sources[s].target && Limited(source.kind, source.config)
    ensures ConfigsOk(targets[t := target], sources[s := source], requests)
  {
    var after := sources[s := source];
    forall x, u | Backs(after, x, u) ensures Limited(after[x].kind, after[x].config) {
      assert x != s ==> Backs(sources, x, u);
    }
  }

  lemma ConfigCovers(st: Store, sub: Submission, t: Id, s: Id)
    requires CoverInv(st) && SourcesOk(st.targets, st.sources)
    requires t in st.targets && Backs(st.sources, s, t) && st.targets[t].kind == sub.kind && Limited(sub.kind, sub.config)
    ensures CoverInv(WithConfig(st, sub, t, s))
  {
    var after := WithConfig(st, sub, t, s);
    ConfigWidens(st, sub, t, s);
    WidenedKeepsWide(st.sources, after.sources, st.requests);
    WidenedKeepsJobsWide(st.targets, st.sources, after.sources, st.requests, st.jobs);
    WidenedConfigs(st.targets, st.sources, st.requests, t, after.targets[t], s, after.sources[s]);
  }

  /** The new request, attached to nothing or to a job that covers it. */
  lemma NewRequestCovers(st: Store, id: Id, r: Request)
    requires CoverInv(st) && id !in st.requests && r.target in st.targets && Limited(st.targets[r.target].kind, r.config)
    requires forall s :: Sole(st.sources, s, r.target) ==> AsksAsMuch(st.sources[s], r)
    requires WorksFor(st.jobs, r) ==> forall s :: Sole(st.sources, s, r.target) ==>
               JobCovers(st.sources[s], st.jobs[r.job.value], r)
    ensures CoverInv(AddRequest(st, id, r))
  {
    var after := st.requests[id := r];
    forall x, s | x in after && Sole(st.sources, s, after[x].target) ensures AsksAsMuch(st.sources[s], after[x]) {
      assert x != id ==> x in st.requests && after[x] == st.requests[x];
    }
  }

  /** A queued job of a target with one source, rescoped to it, covers all that is attached to it. */
  lemma RescopingCovers(st: Store, kind: SourceType, j: Id)
    requires CoverInv(st) && JobsOk(st.sources, st.jobs) && j in st.jobs
    requires st.jobs[j].source in st.sources && st.sources[st.jobs[j].source].kind == kind
    ensures CoverInv(Rescoped(st, kind, j))
  {
    var after := Rescoped(st, kind, j);
    forall r, s | r in st.requests && WorksFor(after.jobs, st.requests[r]) && Sole(st.sources, s, st.requests[r].target)
      ensures JobCovers(st.sources[s], after.jobs[st.requests[r].job.value], st.requests[r])
    {
      assert WorksFor(st.jobs, st.requests[r]);
      if st.requests[r].job.value == j {
        assert Backs(st.sources, st.jobs[j].source, st.requests[r].target);
        NewScopeCovers(st.sources[s], after.jobs[j], st.requests[r]);
      }
    }
  }

  lemma AnswerCovers(st: Store, sub: Submission, t: Id, s: Id, answer: Answer, newRequest: Id, newJob: Id, now: int)
    requires CoverInv(st) && JobsOk(st.sources, st.jobs) && SourcesOk(st.targets, st.sources)
    requires forall r :: r in st.requests && st.requests[r].job.Some? ==> st.requests[r].job.value in st.jobs
    requires t in st.targets && st.targets[t].kind == sub.kind && Backs(st.sources, s, t) && Limited(sub.kind, sub.config)
    requires forall x :: Sole(st.sources, x, t) ==>
               Covers(Desired(st.sources[x].kind, st.sources[x].config), Desired(st.sources[x].kind, sub.config))
    requires newRequest !in st.requests && newJob !in st.jobs && Fits(st, t, answer) && !answer.Joins?
    ensures CoverInv(WithAnswer(st, sub, t, s, answer, newRequest, newJob, now))
  {
    match answer
    case Cached => NewRequestCovers(st, newRequest, NewRequest(st, sub, t, s, None, Ended(COMPLETED)));
    case WaitsForSuccessor => NewRequestCovers(st, newRequest, NewRequest(st, sub, t, s, None, Waiting));
    case StartsJob => StartedCovers(st, sub, t, s, newRequest, newJob, now);
    case Takes(j) => TakenCovers(st, sub, t, s, j, newRequest);
  }

  lemma StartedCovers(st: Store, sub: Submission, t: Id, s: Id, newRequest: Id, newJob: Id, now: int)
    requires CoverInv(st) && t in st.targets && st.targets[t].kind == sub.kind && Backs(st.sources, s, t)
             && Limited(sub.kind, sub.config)
    requires forall r :: r in st.requests && st.requests[r].job.Some? ==> st.requests[r].job.value in st.jobs
    requires forall x :: Sole(st.sources, x, t) ==>
               Covers(Desired(st.sources[x].kind, st.sources[x].config), Desired(st.sources[x].kind, sub.config))
    requires newRequest !in st.requests && newJob !in st.jobs
    ensures CoverInv(AddRequest(st.(jobs := st.jobs[newJob := TargetJob(st, t, s, now)]), newRequest,
                                NewRequest(st, sub, t, s, Some(newJob), Waiting)))
  {
    var started := st.(jobs := st.jobs[newJob := TargetJob(st, t, s, now)]);
    var r := NewRequest(st, sub, t, s, Some(newJob), Waiting);
    JobsUntouchedKeep(st.sources, st.requests, st.jobs, started.jobs);
    forall x | Sole(st.sources, x, t) ensures JobCovers(st.sources[x], started.jobs[newJob], r) {
      NewScopeCovers(st.sources[x], started.jobs[newJob], r);
    }
    NewRequestCovers(started, newRequest, r);
  }

  lemma TakenCovers(st: Store, sub: Submission, t: Id, s: Id, j: Id, newRequest: Id)
    requires CoverInv(st) && JobsOk(st.sources, st.jobs) && SourcesOk(st.targets, st.sources)
    requires t in st.targets && st.targets[t].kind == sub.kind && Limited(sub.kind, sub.config) && IsActive(st.jobs, j, t)
    requires forall x :: Sole(st.sources, x, t) ==>
               Covers(Desired(st.sources[x].kind, st.sources[x].config), Desired(st.sources[x].kind, sub.config))
    requires newRequest !in st.requests && st.jobs[j].source in st.sources
    ensures CoverInv(AddRequest(Rescoped(st, sub.kind, j), newRequest, NewRequest(st, sub, t, s, Some(j), Waiting)))
  {
    var taken := Rescoped(st, sub.kind, j);
    var r := NewRequest(st, sub, t, s, Some(j), Waiting);
    assert Backs(st.sources, st.jobs[j].source, t);
    RescopingCovers(st, sub.kind, j);
    forall x | Sole(st.sources, x, t) ensures JobCovers(st.sources[x], taken.jobs[j], r) {
      NewScopeCovers(st.sources[x], taken.jobs[j], r);
    }
    NewRequestCovers(taken, newRequest, r);
  }

  /** What the coverage argument needs to know of the other tables. */
  ghost predicate Linked(st: Store) {
    && SourcesOk(st.targets, st.sources)
    && JobsOk(st.sources, st.jobs)
    && (forall r :: r in st.requests && st.requests[r].job.Some? ==> st.requests[r].job.value in st.jobs)
    && (forall r :: r in st.requests ==> st.requests[r].target in st.targets)
  }

  lemma CoreIsLinked(st: Store)
    requires Core(st)
    ensures Linked(st)
  {
    forall r | r in st.requests ensures st.requests[r].target in st.targets {
      assert RequestOk(st.targets, st.sources, st.subscriptions, st.jobs, st.requests[r]);
    }
  }

  ghost predicate SourceAsksFor(sources: map<Id, Source>, t: Id, c: Config) {
    forall x :: Sole(sources, x, t) ==> Covers(Desired(sources[x].kind, sources[x].config), Desired(sources[x].kind, c))
  }

  lemma EnrolledCovers(st: Store, sub: Submission, t: Id, s: Id, prior: Config, ids: Choices, now: int)
    requires CoverInv(st) && Linked(st) && t in st.targets && st.targets[t].kind == sub.kind && Backs(st.sources, s, t)
    requires Limited(sub.kind, sub.config) && SourceAsksFor(st.sources, t, sub.config)
    requires ids.request !in st.requests && ids.job !in st.jobs
    ensures CoverInv(Enrolled(st, sub, t, s, prior, ids, now))
  {
    var subscribed := WithSubscription(st, sub, t, ids.subscription, now);
    SubscriptionFrame(st, sub, t, ids.subscription, now);
    DecisionFits(subscribed, sub, t, prior);
    AnswerCovers(subscribed, sub, t, s, Decide(subscribed, sub, t, prior), ids.request, ids.job, now);
  }

  lemma ConfigKeepsLinked(st: Store, sub: Submission, t: Id, s: Id)
    requires Linked(st) && t in st.targets && s in st.sources
    ensures Linked(WithConfig(st, sub, t, s))
  {
    var after := WithConfig(st, sub, t, s);
    SameBackingKeepsSources(st.targets, st.sources, after.sources, st.jobs);
  }

  lemma ConfiguredCovers(st: Store, sub: Submission, t: Id, s: Id, ids: Choices, now: int)
    requires CoverInv(st) && Linked(st) && t in st.targets && st.targets[t].kind == sub.kind && Backs(st.sources, s, t)
    requires Limited(sub.kind, sub.config) && ids.request !in st.requests && ids.job !in st.jobs
    ensures CoverInv(Configured(st, sub, t, s, ids, now))
  {
    var after := WithConfig(st, sub, t, s);
    ConfigCovers(st, sub, t, s);
    ConfigKeepsLinked(st, sub, t, s);
    ConfigWidens(st, sub, t, s);
    assert after.sources[s].kind == sub.kind && Backs(after.sources, s, t);
    EnrolledCovers(after, sub, t, s, st.sources[s].config, ids, now);
  }

  lemma SourcedCovers(st: Store, sub: Submission, t: Id, newSource: Id, primary: Option<Id>, now: int)
    requires CoverInv(st) && newSource !in st.sources && Limited(sub.kind, sub.config)
    requires primary.None? ==> forall r :: r in st.requests ==> st.requests[r].target != t
    ensures CoverInv(WithSource(st, sub, t, newSource, primary, now))
  {
    if primary.None? {
      FirstSourceCovers(st, newSource, Source(sub.kind, sub.config, Some(t), None, now), t);
    }
  }

  /** Only a new target is without a source. */
  lemma SourcelessIsNew(st: Store, sub: Submission, ids: Choices)
    requires Inv(st) && FreshChoices(st, sub, ids) && ids.primary.None?
    ensures TargetFor(st, sub, ids.target) !in st.targets
  {
    PrimaryBacks(st, TargetFor(st, sub, ids.target), ids.primary);
  }

  lemma PlacedCovers(st: Store, sub: Submission, ids: Choices, now: int)
    requires Inv(st) && CoverInv(st) && FreshChoices(st, sub, ids) && Limited(sub.kind, sub.config)
    ensures CoverInv(Placed(st, sub, ids, now))
  {
    var t := TargetFor(st, sub, ids.target);
    CoreIsLinked(st);
    TargetedCovers(st, sub, ids.target);
    NamedFrame(st, sub, ids.target, t);
    if ids.primary.None? {
      SourcelessIsNew(st, sub, ids);
    }
    SourcedCovers(WithAliases(WithTarget(st, sub, ids.target), sub, t), sub, t, ids.source, ids.primary, now);
  }

  lemma PlacedLinked(st: Store, sub: Submission, ids: Choices, now: int)
    requires Core(st) && FreshChoices(st, sub, ids)
    ensures Linked(Placed(st, sub, ids, now))
  {
    var t := TargetFor(st, sub, ids.target);
    NamedKeeps(st, sub, ids.target);
    var named := WithAliases(WithTarget(st, sub, ids.target), sub, t);
    CoreIsLinked(named);
    if ids.primary.None? {
      NewSourceKeepsSources(named.targets, named.sources, named.jobs, ids.source,
        Source(sub.kind, sub.config, Some(t), None, now));
    }
  }

  /** Accepting a request within the contract keeps every job covering what is attached to it. */
  lemma SubmitCovers(st: Store, sub: Submission, ids: Choices, now: int)
    requires Inv(st) && CoverInv(st) && FreshChoices(st, sub, ids) && Limited(sub.kind, sub.config)
    ensures CoverInv(Submit(st, sub, ids, now))
  {
    var t, s := TargetFor(st, sub, ids.target), ids.primary.GetOr(ids.source);
    if NoReplay(st, sub, t) {
      PlacedCovers(st, sub, ids, now);
      PlacedLinked(st, sub, ids, now);
      PlacedFacts(st, sub, ids, now);
      ConfiguredCovers(Placed(st, sub, ids, now), sub, t, s, ids, now);
    }
  }

  // ---- promotion and removal -----------------------------------------------------------------------

  /** A merged target has two sources, so nothing is claimed about it; others are as they were. */
  lemma MergedSole(st: Store, cur: Id, tgt: Id, s: Id, t: Id)
    requires cur != tgt && HasSource(st.sources, cur) && HasSource(st.sources, tgt)
    requires Sole(MovedSources(st.sources, cur, tgt), s, t)
    ensures t != cur && t != tgt && Sole(st.sources, s, t) && MovedSources(st.sources, cur, tgt)[s] == st.sources[s]
  {
    var after := MovedSources(st.sources, cur, tgt);
    forall x, u
      ensures Backs(after, x, u) <==> u != cur && (Backs(st.sources, x, u) || (u == tgt && Backs(st.sources, x, cur)))
    {
      MovedBacking(st.sources, cur, tgt, x, u);
    }
    var a :| Backs(st.sources, a, cur);
    var b :| Backs(st.sources, b, tgt);
    assert Backs(after, a, tgt) && Backs(after, b, tgt) && a != b;
  }

  lemma MergedRequestCovers(st: Store, cur: Id, tgt: Id, r: Id, s: Id)
    requires cur != tgt && HasSource(st.sources, cur) && HasSource(st.sources, tgt)
    requires Wide(st.sources, st.requests) && JobsWide(st.sources, st.requests, st.jobs) && r in st.requests
    requires Sole(MovedSources(st.sources, cur, tgt), s,
             MovedRequest(st.subscriptions, st.subscriptionIds, st.requests, st.requests[r], cur, tgt).target)
    ensures var request := MovedRequest(st.subscriptions, st.subscriptionIds, st.requests, st.requests[r], cur, tgt);
            var jobs := MovedJobs(st.jobs, cur, tgt);
            var source := MovedSources(st.sources, cur, tgt)[s];
            AsksAsMuch(source, request) && (WorksFor(jobs, request) ==> JobCovers(source, jobs[request.job.value], request))
  {
    MergedSole(st, cur, tgt, s,
               MovedRequest(st.subscriptions, st.subscriptionIds, st.requests, st.requests[r], cur, tgt).target);
    assert MovedRequest(st.subscriptions, st.subscriptionIds, st.requests, st.requests[r], cur, tgt) == st.requests[r];
    if WorksFor(MovedJobs(st.jobs, cur, tgt), st.requests[r]) {
      assert WorksFor(st.jobs, st.requests[r]);
    }
  }

  lemma MergeCovers(st: Store, cur: Id, tgt: Id)
    requires CoverInv(st) && Mergeable(st, cur, tgt) && Sourced(st.targets, st.sources)
    ensures CoverInv(Merged(st, cur, tgt))
  {
    var sources, requests, jobs := MovedSources(st.sources, cur, tgt),
      MovedRequests(st.subscriptions, st.subscriptionIds, st.requests, cur, tgt), MovedJobs(st.jobs, cur, tgt);
    MergeConfigs(st, cur, tgt);
    forall r, s | r in requests && Sole(sources, s, requests[r].target)
      ensures AsksAsMuch(sources[s], requests[r])
      ensures WorksFor(jobs, requests[r]) ==> JobCovers(sources[s], jobs[requests[r].job.value], requests[r])
    {
      MergedRequestCovers(st, cur, tgt, r, s);
    }
  }

  lemma MergeConfigs(st: Store, cur: Id, tgt: Id)
    requires ConfigsOk(st.targets, st.sources, st.requests) && Mergeable(st, cur, tgt)
    ensures ConfigsOk(st.targets - {cur}, MovedSources(st.sources, cur, tgt),
            MovedRequests(st.subscriptions, st.subscriptionIds, st.requests, cur, tgt))
  {
    var after := MovedSources(st.sources, cur, tgt);
    forall s, t | Backs(after, s, t) ensures Limited(after[s].kind, after[s].config) {
      assert Backs(st.sources, s, t) || Backs(st.sources, s, cur);
    }
  }

  lemma RenameCovers(st: Store, t: Id, key: string)
    requires CoverInv(st) && t in st.targets
    ensures CoverInv(Renamed(st, t, key))
  {
  }

  lemma SyncedMergeCovers(st: Store, cur: Id, tgt: Id, now: int)
    requires CoverInv(st) && Mergeable(st, cur, tgt) && Sourced(st.targets, st.sources)
    ensures CoverInv(SyncPin(Merged(st, cur, tgt), tgt, now))
  {
    MergeCovers(st, cur, tgt);
  }

  lemma NameCovers(st: Store, name: string, value: string, t: Id)
    requires CoverInv(st)
    ensures CoverInv(Named(st, name, value, t))
  {
  }

  lemma AliasesCover(st: Store, t: Id, channelId: string, handle: Option<string>)
    requires CoverInv(st)
    ensures CoverInv(WithChannelAliases(st, t, channelId, handle))
  {
    NameCovers(st, "channel_id", channelId, t);
    if handle.Some? && handle.value != "" {
      NameCovers(Named(st, "channel_id", channelId, t), "handle", handle.value, t);
    }
  }

  lemma PromoteCovers(st: Store, source: Id, channelId: string, handle: Option<string>, now: int)
    requires Inv(st) && CoverInv(st)
    ensures CoverInv(Promote(st, source, channelId, handle, now))
  {
    if Survivor(st, source, channelId).Some? {
      SurvivorFits(st, source, channelId);
      var tgt, cur := Survivor(st, source, channelId).value, st.sources[source].target.value;
      if tgt != cur {
        SyncedMergeCovers(st, cur, tgt, now);
        AliasesCover(SyncPin(Merged(st, cur, tgt), tgt, now), tgt, channelId, handle);
      } else {
        RenameCovers(st, cur, CanonicalKey(channelId));
        AliasesCover(Renamed(st, cur, CanonicalKey(channelId)), tgt, channelId, handle);
      }
    }
  }

  lemma RemoveTargetCovers(st: Store, t: Id)
    requires CoverInv(st) && t in st.targets
    ensures CoverInv(RemoveTarget(st, t))
  {
    var after := RemoveTarget(st, t);
    forall s, u ensures Backs(after.sources, s, u) <==> Backs(st.sources, s, u) && u != t {
    }
    forall s, u | u != t ensures Sole(after.sources, s, u) <==> Sole(st.sources, s, u) {
    }
  }
}
