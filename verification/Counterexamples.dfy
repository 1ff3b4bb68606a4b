/** Runs of the coordinator that lead to the states its own code does not guard against: a job that has
    ended while another works for its target and a request waits, and a target that somebody
    subscribes to when it is deleted. */
module Counterexamples {
  import opened Common
  import opened CollectionPolicy
  import opened Jobs
  import opened Store
  import opened Sources
  import opened Lifecycle
  import opened Submission
  import opened Coordinator

  /** The names used in a run: a channel target and its source, two jobs, two requests. */
  datatype Names = Names(key: string, config: Config, t: Id, s: Id, a: Id, b: Id, first: Id, second: Id, user: Id, worker: Id)

  const AS_IS := Changes(None, None, None, None)

  predicate Distinct(n: Names) {
    n.a != n.b && n.first != n.second
  }

  function Asking(n: Names): Submission {
    Submission(Channel, n.config, n.key, [], false, None, None)
  }

  /** A store with one target and one source, both with this config. */
  function Small(n: Names, config: Config, requests: map<Id, Request>, jobs: JobMap): Store {
    Tables(map[n.t := Target(Channel, n.key, config, NO_COVERAGE)], map[(Channel, n.key) := n.t], map[],
           map[n.s := Source(Channel, config, Some(n.t), None, 0)], map[], map[], requests, jobs, map[], map[], map[])
  }

  function Asked(n: Names, job: Option<Id>, status: Status): Request {
    Request(n.t, n.s, n.config, None, job, status, None, None)
  }

  function Merged1(n: Names): Config {
    Merge(Channel, Merge(Channel, n.config, n.config), n.config)
  }

  function Merged2(n: Names): Config {
    Merge(Channel, Merge(Channel, Merged1(n), Merged1(n)), n.config)
  }

  function QueuedJob(n: Names): Job {
    Job(n.s, QUEUED, ScopeOf(Channel, Merged1(n)), map[], None, None, None, 0, Some(n.t), None)
  }

  // ---- the stores along the way --------------------------------------------------------------

  function Started(n: Names): Store {
    Small(n, Merged1(n), map[n.first := Asked(n, Some(n.a), Waiting)], map[n.a := QueuedJob(n)])
  }

  function Running1(n: Names): Store {
    Started(n).(jobs := map[n.a := Claimed(QueuedJob(n), n.worker, 0, 60)])
  }

  function EndedJob(n: Names): Job {
    Claimed(QueuedJob(n), n.worker, 0, 60).(state := FAILED)
  }

  function Failed1(n: Names): Store {
    Small(n, Merged1(n), map[n.first := Asked(n, Some(n.a), Ended(FAILED))], map[n.a := EndedJob(n)])
  }

  function Restarted(n: Names): Store {
    Failed1(n).(jobs := map[n.a := EndedJob(n), n.b := QueuedJob(n)])
  }

  function Running2(n: Names): Store {
    Failed1(n).(jobs := map[n.a := EndedJob(n), n.b := Claimed(QueuedJob(n), n.worker, 0, 60)])
  }

  function Waited(n: Names): Store {
    Small(n, Merged2(n), Running2(n).requests[n.second := Asked(n, None, Waiting)], Running2(n).jobs)
  }

  // ---- step by step ------------------------------------------------------------------------------

  function FirstIds(n: Names): Choices {
    Choices(n.t, n.s, n.user, n.first, n.a, None)
  }

  lemma FreshFirst(n: Names)
    ensures FreshChoices(EMPTY, Asking(n), FirstIds(n))
    ensures TargetFor(EMPTY, Asking(n), n.t) == n.t
    ensures Placed(EMPTY, Asking(n), FirstIds(n), 0) == Small(n, n.config, map[], map[])
  {
    assert FirstAlias(EMPTY.aliases, Channel, []) == None;
    assert Candidates(EMPTY.sources, EMPTY.requests, n.t) == {};
  }

  /** A target without coverage and without a job: the request starts one. */
  lemma StartsFirst(n: Names)
    ensures WithRequest(Small(n, Merged1(n), map[], map[]), Asking(n), n.t, n.s, n.config, n.first, n.a, 0) == Started(n)
  {
    var st := Small(n, Merged1(n), map[], map[]);
    assert !HasActive(st.jobs, n.t);
    assert Decide(st, Asking(n), n.t, n.config) == StartsJob;
  }

  lemma SubmitFirst(n: Names)
    ensures FreshChoices(EMPTY, Asking(n), FirstIds(n))
    ensures Submit(EMPTY, Asking(n), FirstIds(n), 0) == Started(n)
  {
    var st := Small(n, n.config, map[], map[]);
    FreshFirst(n);
    assert WithConfig(st, Asking(n), n.t, n.s) == Small(n, Merged1(n), map[], map[]);
    StartsFirst(n);
    assert forall r :: !IsReplay(EMPTY, r, Asking(n), n.t);
    assert Configured(st, Asking(n), n.t, n.s, FirstIds(n), 0) == Started(n);
  }

  lemma OnlySource(n: Names, config: Config, requests: map<Id, Request>, jobs: JobMap)
    requires forall r :: r in requests ==> requests[r].source == n.s
    ensures IsPrimary(Small(n, config, requests, jobs), n.t, Some(n.s))
  {
    var st := Small(n, config, requests, jobs);
    assert Backs(st.sources, n.s, n.t);
    if r :| r in requests && NamesSource(st.sources, requests[r], n.t) {
      assert requests[r].source in Candidates(st.sources, requests, n.t);
    }
    RanksTotal(CoverageRank(st.sources[n.s]), CoverageRank(st.sources[n.s]));
  }

  lemma ClaimFirst(n: Names)
    ensures IsOldestClaimable(Started(n).jobs, n.a, 0)
    ensures Started(n).(jobs := Started(n).jobs[n.a := Claimed(QueuedJob(n), n.worker, 0, 60)]) == Running1(n)
  {
  }

  lemma FailFirst(n: Names, spare: Id)
    ensures Transition(Running1(n), n.a, FAILED, AS_IS, spare, Some(n.s), 0) == Success(Failed1(n))
  {
    var settled := SettledStore(Running1(n), n.a, FAILED, AS_IS);
    assert settled == Failed1(n);
    assert Recorded(settled, EndedJob(n), n.t) == settled.targets;
    assert !SomeWait(settled.requests, n.t);
    assert EndJob(settled, EndedJob(n), spare, Some(n.s), 0) == settled;
  }

  lemma StartSecond(n: Names)
    requires Distinct(n)
    ensures CreateJob(Failed1(n), n.s, None, ScopeOf(Channel, Merged1(n)), n.b, None, 0) == Success(Restarted(n))
  {
    assert !HasActive(Failed1(n).jobs, n.t);
  }

  lemma ClaimSecond(n: Names)
    requires Distinct(n)
    ensures IsOldestClaimable(Restarted(n).jobs, n.b, 0)
    ensures Restarted(n).(jobs := Restarted(n).jobs[n.b := Claimed(QueuedJob(n), n.worker, 0, 60)]) == Running2(n)
  {
  }

  /** Ids that no record of the run has. */
  datatype Spares = Spares(target: Id, source: Id, subscription: Id, job: Id)

  predicate Unused(n: Names, u: Spares) {
    u.target != n.t && u.source != n.s && u.subscription != n.s && u.job != n.a && u.job != n.b
  }

  function SecondIds(n: Names, u: Spares): Choices {
    Choices(u.target, u.source, u.subscription, n.second, u.job, Some(n.s))
  }

  lemma FreshSecond(n: Names, u: Spares)
    requires Distinct(n) && Unused(n, u)
    ensures FreshChoices(Running2(n), Asking(n), SecondIds(n, u))
    ensures TargetFor(Running2(n), Asking(n), u.target) == n.t
    ensures Placed(Running2(n), Asking(n), SecondIds(n, u), 0) == Running2(n)
  {
    OnlySource(n, Merged1(n), Running2(n).requests, Running2(n).jobs);
    assert FirstAlias(Running2(n).aliases, Channel, []) == None;
  }

  /** The job has started, so the request waits for its successor. */
  lemma SecondWaits(n: Names, newJob: Id)
    requires Distinct(n)
    ensures var st := Small(n, Merged2(n), Running2(n).requests, Running2(n).jobs);
            WithRequest(st, Asking(n), n.t, n.s, Merged1(n), n.second, newJob, 0) == Waited(n)
  {
    var st := Small(n, Merged2(n), Running2(n).requests, Running2(n).jobs);
    assert IsActive(st.jobs, n.b, n.t);
    DecisionFits(st, Asking(n), n.t, Merged1(n));
    assert Decide(st, Asking(n), n.t, Merged1(n)) == WaitsForSuccessor;
  }

  lemma SubmitSecond(n: Names, u: Spares)
    requires Distinct(n) && Unused(n, u)
    ensures FreshChoices(Running2(n), Asking(n), SecondIds(n, u))
    ensures Submit(Running2(n), Asking(n), SecondIds(n, u), 0) == Waited(n)
  {
    FreshSecond(n, u);
    ConfiguredSecond(n, u);
    assert forall r :: !IsReplay(Running2(n), r, Asking(n), n.t);
  }

  lemma ConfiguredSecond(n: Names, u: Spares)
    requires Distinct(n)
    ensures Configured(Running2(n), Asking(n), n.t, n.s, SecondIds(n, u), 0) == Waited(n)
  {
    assert WithConfig(Running2(n), Asking(n), n.t, n.s)
           == Small(n, Merged2(n), Running2(n).requests, Running2(n).jobs);
    SecondWaits(n, u.job);
  }

  // ---- the runs --------------------------------------------------------------------------------

  lemma OneStep(before: Store, steps: seq<Step>, st: Store, e: Event, after: Store)
    requires RunsTo(before, steps, st) && Enabled(st, e, 0) && Next(st, e, 0) == after
    ensures RunsTo(before, steps + [Step(e, 0)], after)
  {
    RunAppends(before, steps, Step(e, 0));
  }

  lemma FirstIsSubmitted(n: Names)
    ensures RunsTo(EMPTY, [Step(SubmitRequest(Asking(n), FirstIds(n)), 0)], Started(n))
  {
    SubmitFirst(n);
    OneStep(EMPTY, [], EMPTY, SubmitRequest(Asking(n), FirstIds(n)), Started(n));
    assert [] + [Step(SubmitRequest(Asking(n), FirstIds(n)), 0)] == [Step(SubmitRequest(Asking(n), FirstIds(n)), 0)];
  }

  lemma FirstIsClaimed(n: Names, steps: seq<Step>)
    requires RunsTo(EMPTY, steps, Started(n))
    ensures RunsTo(EMPTY, steps + [Step(ClaimJob(n.a, n.worker, 60), 0)], Running1(n))
  {
    ClaimFirst(n);
    OneStep(EMPTY, steps, Started(n), ClaimJob(n.a, n.worker, 60), Running1(n));
  }

  lemma FirstFails(n: Names, spare: Id, steps: seq<Step>)
    requires spare != n.a && RunsTo(EMPTY, steps, Running1(n))
    ensures RunsTo(EMPTY, steps + [Step(MoveJobTo(n.a, FAILED, AS_IS, spare, Some(n.s)), 0)], Failed1(n))
  {
    FailFirst(n, spare);
    OnlySource(n, Merged1(n), Running1(n).requests, Running1(n).jobs);
    OneStep(EMPTY, steps, Running1(n), MoveJobTo(n.a, FAILED, AS_IS, spare, Some(n.s)), Failed1(n));
  }

  /** Up to the failure of the first job. */
  lemma RunToFailure(n: Names, spare: Id) returns (steps: seq<Step>)
    requires spare != n.a
    ensures RunsTo(EMPTY, steps, Failed1(n))
  {
    steps := [Step(SubmitRequest(Asking(n), FirstIds(n)), 0)];
    FirstIsSubmitted(n);
    FirstIsClaimed(n, steps);
    steps := steps + [Step(ClaimJob(n.a, n.worker, 60), 0)];
    FirstFails(n, spare, steps);
    steps := steps + [Step(MoveJobTo(n.a, FAILED, AS_IS, spare, Some(n.s)), 0)];
  }

  /** And on until a request waits for the second one. */
  lemma RunToWaiting(n: Names, u: Spares) returns (steps: seq<Step>)
    requires Distinct(n) && Unused(n, u)
    ensures RunsTo(EMPTY, steps, Waited(n))
  {
    var before := RunToFailure(n, u.job);
    var create := CreateManualJob(n.s, None, ScopeOf(Channel, Merged1(n)), n.b, None);
    var claim, submit := ClaimJob(n.b, n.worker, 60), SubmitRequest(Asking(n), SecondIds(n, u));
    StartSecond(n);
    OneStep(EMPTY, before, Failed1(n), create, Restarted(n));
    ClaimSecond(n);
    OneStep(EMPTY, before + [Step(create, 0)], Restarted(n), claim, Running2(n));
    SubmitSecond(n, u);
    OneStep(EMPTY, before + [Step(create, 0)] + [Step(claim, 0)], Running2(n), submit, Waited(n));
    steps := before + [Step(create, 0)] + [Step(claim, 0)] + [Step(submit, 0)];
  }

  /** A job that failed, beside a request that waits for the job that came after it. */
  ghost predicate FailedBesideWaiting(st: Store, j: Id, t: Id, spare: Id, primary: Option<Id>) {
    && j in st.jobs && st.jobs[j].state == FAILED && st.jobs[j].target == Some(t) && spare !in st.jobs
    && IsPrimary(st, t, primary) && SomeWait(st.requests, t)
  }

  lemma WaitedFacts(n: Names, u: Spares)
    requires Distinct(n) && Unused(n, u)
    ensures FailedBesideWaiting(Waited(n), n.a, n.t, u.job, Some(n.s))
  {
    OnlySource(n, Merged2(n), Waited(n).requests, Waited(n).jobs);
    assert n.second in Waited(n).requests && Waits(Waited(n).requests[n.second], n.t);
  }

  lemma MayBeCancelled(st: Store, j: Id, t: Id, spare: Id, primary: Option<Id>)
    requires FailedBesideWaiting(st, j, t, spare, primary)
    ensures CanMove(st.jobs[j].state, CANCELLED)
  {
  }

  /** The store after the hooks have run for a move to cancelled. */
  ghost function HooksRun(st: Store, j: Id, spare: Id, primary: Option<Id>): Store
    requires j in st.jobs
  {
    EndJob(SettledStore(st, j, CANCELLED, AS_IS), Moved(st.jobs[j], CANCELLED, AS_IS), spare, primary, 0)
  }

  lemma HooksBreak(st: Store, j: Id, t: Id, spare: Id, primary: Option<Id>)
    requires Inv(st) && FailedBesideWaiting(st, j, t, spare, primary)
    ensures !OneActive(HooksRun(st, j, spare, primary).jobs)
  {
    RerunHooksSafeIffNobodyWaits(st, j, CANCELLED, AS_IS, spare, primary, 0, t);
  }

  lemma RunIsWellFormed(steps: seq<Step>, st: Store)
    requires RunsTo(EMPTY, steps, st)
    ensures Inv(st)
  {
    EmptyIsWellFormed();
    EveryRunKeepsTheStoreWellFormed(EMPTY, steps);
  }

  /** The terminal hooks, run once more when the first job moves from failed to cancelled, give the
      target a second unfinished job: the move is allowed, and the state before it is reachable. */
  lemma RerunHooksMakeSecondJob(n: Names, u: Spares) returns (steps: seq<Step>, st: Store)
    requires Distinct(n) && Unused(n, u)
    ensures RunsTo(EMPTY, steps, st) && n.a in st.jobs && CanMove(st.jobs[n.a].state, CANCELLED)
    ensures !OneActive(HooksRun(st, n.a, u.job, Some(n.s)).jobs)
  {
    steps := RunToWaiting(n, u);
    st := ReachedFacts(n, u, steps);
    RunIsWellFormed(steps, st);
    MayBeCancelled(st, n.a, n.t, u.job, Some(n.s));
    HooksBreak(st, n.a, n.t, u.job, Some(n.s));
  }

  lemma ReachedFacts(n: Names, u: Spares, steps: seq<Step>) returns (st: Store)
    requires Distinct(n) && Unused(n, u) && RunsTo(EMPTY, steps, Waited(n))
    ensures RunsTo(EMPTY, steps, st) && FailedBesideWaiting(st, n.a, n.t, u.job, Some(n.s))
  {
    st := Waited(n);
    WaitedFacts(n, u);
  }

  /** A job that failed, beside an unfinished one for the same target. */
  ghost predicate FailedBesideActive(st: Store, j: Id, t: Id) {
    j in st.jobs && st.jobs[j].state == FAILED && st.jobs[j].target == Some(t) && HasActive(st.jobs, t)
  }

  lemma RevivalBreaks(st: Store, j: Id, t: Id)
    requires OneActive(st.jobs) && FailedBesideActive(st, j, t)
    ensures CanMove(st.jobs[j].state, QUEUED) && !OneActive(MoveJob(st, j, QUEUED, AS_IS).jobs)
  {
    RevivalSafeIffTargetIdle(st, j, QUEUED, AS_IS, t);
  }

  lemma WaitedIsBusy(n: Names, steps: seq<Step>) returns (st: Store)
    requires Distinct(n) && RunsTo(EMPTY, steps, Waited(n))
    ensures RunsTo(EMPTY, steps, st) && FailedBesideActive(st, n.a, n.t)
  {
    st := Waited(n);
    assert IsActive(st.jobs, n.b, n.t);
  }

  /** Queueing the first job again while the second one runs gives the target two unfinished jobs: the
      move is allowed, and the state before it is reachable. */
  lemma RevivalMakesSecondJob(n: Names, u: Spares) returns (steps: seq<Step>, st: Store)
    requires Distinct(n) && Unused(n, u)
    ensures RunsTo(EMPTY, steps, st) && n.a in st.jobs && CanMove(st.jobs[n.a].state, QUEUED)
    ensures OneActive(st.jobs) && !OneActive(MoveJob(st, n.a, QUEUED, AS_IS).jobs)
  {
    steps := RunToWaiting(n, u);
    st := WaitedIsBusy(n, steps);
    RunIsWellFormed(steps, st);
    RevivalBreaks(st, n.a, n.t);
  }

  function Subscribed1(n: Names, id: Id): Store {
    AddSubscription(Started(n), n.user, n.t, id).(pins := map[n.t := Pin(true, PIN_INTERVAL, 0, None)])
  }

  lemma SubscribeFirst(n: Names, id: Id)
    ensures EnsureSubscription(Started(n), n.user, n.t, id, 0) == Subscribed1(n, id)
  {
    var added := AddSubscription(Started(n), n.user, n.t, id);
    assert Enables(added.subscriptions, id, n.t);
  }

  lemma RunToSubscription(n: Names, id: Id) returns (steps: seq<Step>)
    ensures RunsTo(EMPTY, steps, Subscribed1(n, id))
  {
    var first := [Step(SubmitRequest(Asking(n), FirstIds(n)), 0)];
    FirstIsSubmitted(n);
    SubscribeFirst(n, id);
    OneStep(EMPTY, first, Started(n), SubscribeTo(n.user, n.t, id), Subscribed1(n, id));
    steps := first + [Step(SubscribeTo(n.user, n.t, id), 0)];
  }

  lemma SubscribedFacts(n: Names, id: Id)
    requires id != n.s
    ensures var st := Subscribed1(n, id);
            && n.t in st.targets && Subscribed(st.subscriptions, n.t)
            && DeleteSource(st, n.s, None, 0) == Success(RemoveTarget(st, n.t))
  {
    assert id in Subscribed1(n, id).subscriptions;
  }

  /** Deleting the worker source of a target that somebody subscribes to, as the in-memory code lets
      its callers do, leaves a subscription to a target that is gone. */
  lemma DeletionStrandsSubscriber(n: Names, id: Id) returns (steps: seq<Step>, st: Store)
    requires id != n.s
    ensures RunsTo(EMPTY, steps, st) && Inv(st)
    ensures DeleteSource(st, n.s, None, 0).Success? && !Inv(DeleteSource(st, n.s, None, 0).value)
  {
    st := Subscribed1(n, id);
    steps := RunToSubscription(n, id);
    RunIsWellFormed(steps, st);
    SubscribedFacts(n, id);
    RemoveTargetKeepsIffUnclaimed(st, n.t);
  }
}
