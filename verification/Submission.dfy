/** Accepting a collection request: submit_collection_request in
    apps/api/monitube_api/infrastructure/memory_jobs.py */
module Submission {
  import opened Common
  import opened CollectionPolicy
  import opened Jobs
  import opened Store
  import opened Sources
  import opened Lifecycle

  datatype Submission = Submission(
    kind: SourceType,
    config: Config,
    key: string,
    aliases: seq<(string, string)>,
    forceRefresh: bool,
    idempotencyKey: Option<string>,
    owner: Option<Id>)

  /** The ids new records would get, and the worker source the repository would pick. */
  datatype Choices = Choices(target: Id, source: Id, subscription: Id, request: Id, job: Id, primary: Option<Id>)

  // ---- which target --------------------------------------------------------------------

  function FirstAlias(aliases: map<Alias, Id>, kind: SourceType, names: seq<(string, string)>): Option<Id> {
    if names == [] then None
    else if Alias(kind, names[0].0, names[0].1) in aliases then Some(aliases[Alias(kind, names[0].0, names[0].1)])
    else FirstAlias(aliases, kind, names[1..])
  }

  function LookUp(aliases: map<Alias, Id>, keys: map<(SourceType, string), Id>, sub: Submission): Option<Id> {
    var byAlias := FirstAlias(aliases, sub.kind, sub.aliases);
    if byAlias.Some? then byAlias
    else if (sub.kind, sub.key) in keys then Some(keys[(sub.kind, sub.key)])
    else None
  }

  function FindTarget(st: Store, sub: Submission): Option<Id> {
    LookUp(st.aliases, st.keys, sub)
  }

  function TargetFor(st: Store, sub: Submission, newTarget: Id): Id {
    FindTarget(st, sub).GetOr(newTarget)
  }

  lemma {:induction false} AliasFinds(st: Store, kind: SourceType, names: seq<(string, string)>)
    requires AliasesOk(st.targets, st.aliases)
    ensures FirstAlias(st.aliases, kind, names).Some? ==>
              && FirstAlias(st.aliases, kind, names).value in st.targets
              && st.targets[FirstAlias(st.aliases, kind, names).value].kind == kind
  {
    if names != [] && Alias(kind, names[0].0, names[0].1) !in st.aliases {
      AliasFinds(st, kind, names[1..]);
    }
  }

  lemma FoundTargetFits(st: Store, sub: Submission)
    requires AliasesOk(st.targets, st.aliases) && KeysOk(st.targets, st.keys)
    ensures FindTarget(st, sub).Some? ==>
              FindTarget(st, sub).value in st.targets && st.targets[FindTarget(st, sub).value].kind == sub.kind
    ensures FindTarget(st, sub).None? ==> (sub.kind, sub.key) !in st.keys
  {
    AliasFinds(st, sub.kind, sub.aliases);
  }

  // ---- the steps -------------------------------------------------------------------------

  function WithTarget(st: Store, sub: Submission, newTarget: Id): Store {
    if FindTarget(st, sub).Some? then st
    else st.(targets := st.targets[newTarget := Target(sub.kind, sub.key, sub.config, NO_COVERAGE)],
             keys := st.keys[(sub.kind, sub.key) := newTarget])
  }

  /** A replay of an earlier request: same user, target and non-empty key. */
  predicate IsReplay(st: Store, r: Id, sub: Submission, t: Id) {
    && r in st.requests && Keyed(st.requests[r])
    && st.requests[r].key == sub.idempotencyKey && st.requests[r].user == sub.owner && st.requests[r].target == t
  }

  function AddAliases(aliases: map<Alias, Id>, kind: SourceType, names: seq<(string, string)>, t: Id): map<Alias, Id>
    decreases |names|
  {
    if names == [] then aliases
    else AddAliases(aliases[Alias(kind, names[0].0, names[0].1) := t], kind, names[1..], t)
  }

  function WithAliases(st: Store, sub: Submission, t: Id): Store {
    st.(aliases := AddAliases(st.aliases, sub.kind, sub.aliases, t))
  }

  function WithSource(st: Store, sub: Submission, t: Id, newSource: Id, primary: Option<Id>, now: int): Store {
    if primary.Some? then st else st.(sources := st.sources[newSource := Source(sub.kind, sub.config, Some(t), None, now)])
  }

  function Widened(st: Store, sub: Submission, t: Id, s: Id): Config
    requires t in st.targets && s in st.sources
  {
    Merge(sub.kind, Merge(sub.kind, st.sources[s].config, st.targets[t].config), sub.config)
  }

  /** Source and target get the merged config. */
  function WithConfig(st: Store, sub: Submission, t: Id, s: Id): Store
    requires t in st.targets && s in st.sources
  {
    var merged := Widened(st, sub, t, s);
    st.(sources := st.sources[s := st.sources[s].(config := merged)],
        targets := st.targets[t := st.targets[t].(config := merged)])
  }

  ghost function WithSubscription(st: Store, sub: Submission, t: Id, newId: Id, now: int): Store {
    if sub.owner.Some? then EnsureSubscription(st, sub.owner.value, t, newId, now) else st
  }

  function SubscriptionOf(st: Store, sub: Submission, t: Id): Option<Id> {
    if sub.owner.Some? && (sub.owner.value, t) in st.subscriptionIds then Some(st.subscriptionIds[(sub.owner.value, t)])
    else None
  }

  function NewRequest(st: Store, sub: Submission, t: Id, s: Id, job: Option<Id>, status: Status): Request {
    Request(t, s, sub.config, sub.idempotencyKey, job, status, sub.owner, SubscriptionOf(st, sub, t))
  }

  function AddRequest(st: Store, id: Id, r: Request): Store {
    st.(requests := st.requests[id := r])
  }

  /** A queued job takes the scope its source now asks for. */
  function Rescoped(st: Store, kind: SourceType, j: Id): Store
    requires j in st.jobs && st.jobs[j].source in st.sources
  {
    st.(jobs := st.jobs[j := st.jobs[j].(scope := ScopeOf(kind, st.sources[st.jobs[j].source].config))])
  }

  /** How a request is answered: from recorded coverage, by a new job, by joining the unfinished job
      or being taken by it while it is queued, or by waiting for that job's successor. */
  datatype Answer = Cached | StartsJob | Joins(job: Id) | Takes(job: Id) | WaitsForSuccessor

  ghost function Decide(st: Store, sub: Submission, t: Id, prior: Config): Answer
    requires t in st.targets
  {
    var desired := Desired(sub.kind, sub.config);
    var active := ActiveJob(st.jobs, t);
    if !sub.forceRefresh && Satisfies(st.targets[t].coverage, desired) then Cached
    else if active.None? then StartsJob
    else if Satisfies(JobCoverage(st.jobs[active.value].scope, sub.kind, prior), desired) then Joins(active.value)
    else if st.jobs[active.value].state == QUEUED then Takes(active.value)
    else WaitsForSuccessor
  }

  ghost function WithAnswer(st: Store, sub: Submission, t: Id, s: Id, answer: Answer, newRequest: Id, newJob: Id,
                            now: int): Store
    requires s in st.sources
  {
    match answer
    case Cached => AddRequest(st, newRequest, NewRequest(st, sub, t, s, None, Ended(COMPLETED)))
    case StartsJob =>
      AddRequest(st.(jobs := st.jobs[newJob := TargetJob(st, t, s, now)]), newRequest,
                 NewRequest(st, sub, t, s, Some(newJob), Waiting))
    case Joins(j) => AddRequest(st, newRequest, NewRequest(st, sub, t, s, Some(j), Joined))
    case Takes(j) =>
      AddRequest(if j in st.jobs && st.jobs[j].source in st.sources then Rescoped(st, sub.kind, j) else st, newRequest,
                 NewRequest(st, sub, t, s, Some(j), Waiting))
    case WaitsForSuccessor => AddRequest(st, newRequest, NewRequest(st, sub, t, s, None, Waiting))
  }

  ghost predicate Fits(st: Store, t: Id, answer: Answer) {
    match answer
    case Cached => true
    case StartsJob => !HasActive(st.jobs, t)
    case Joins(j) => IsActive(st.jobs, j, t)
    case Takes(j) => IsActive(st.jobs, j, t) && st.jobs[j].state == QUEUED
    case WaitsForSuccessor => HasActive(st.jobs, t)
  }

  lemma DecisionFits(st: Store, sub: Submission, t: Id, prior: Config)
    requires t in st.targets
    ensures Fits(st, t, Decide(st, sub, t, prior))
    ensures !Decide(st, sub, t, prior).Joins?
  {
    var active := ActiveJob(st.jobs, t);
    if active.Some? {
      NeverJoins(st.jobs[active.value].scope, sub.kind, prior, Desired(sub.kind, sub.config));
    }
  }

  ghost function WithRequest(st: Store, sub: Submission, t: Id, s: Id, prior: Config, newRequest: Id, newJob: Id,
                             now: int): Store
    requires t in st.targets && s in st.sources
  {
    WithAnswer(st, sub, t, s, Decide(st, sub, t, prior), newRequest, newJob, now)
  }

  /** The subscription, then the request. */
  ghost function Enrolled(st: Store, sub: Submission, t: Id, s: Id, prior: Config, ids: Choices, now: int): Store {
    var subscribed := WithSubscription(st, sub, t, ids.subscription, now);
    if t in subscribed.targets && s in subscribed.sources then
      WithRequest(subscribed, sub, t, s, prior, ids.request, ids.job, now)
    else subscribed
  }

  /** The merged config, then the rest; the active job is judged by the config before merging. */
  ghost function Configured(st: Store, sub: Submission, t: Id, s: Id, ids: Choices, now: int): Store {
    if t in st.targets && s in st.sources then
      Enrolled(WithConfig(st, sub, t, s), sub, t, s, st.sources[s].config, ids, now)
    else st
  }

  /** The target with its aliases and a worker source. */
  function Placed(st: Store, sub: Submission, ids: Choices, now: int): Store {
    var t := TargetFor(st, sub, ids.target);
    WithSource(WithAliases(WithTarget(st, sub, ids.target), sub, t), sub, t, ids.source, ids.primary, now)
  }

  ghost function Submit(st: Store, sub: Submission, ids: Choices, now: int): Store {
    var t := TargetFor(st, sub, ids.target);
    if exists r :: IsReplay(st, r, sub, t) then st
    else Configured(Placed(st, sub, ids, now), sub, t, ids.primary.GetOr(ids.source), ids, now)
  }

  ghost predicate UnusedChoices(st: Store, ids: Choices) {
    && ids.target !in st.targets && ids.source !in st.sources && ids.source !in st.subscriptions
    && ids.subscription !in st.subscriptions && ids.subscription !in st.sources
    && ids.request !in st.requests && ids.job !in st.jobs
  }

  ghost predicate FreshChoices(st: Store, sub: Submission, ids: Choices) {
    UnusedChoices(st, ids) && IsPrimary(st, TargetFor(st, sub, ids.target), ids.primary)
  }

  // ---- each step keeps the store well formed -------------------------------------------------

  lemma NewTargetKeepsNames(st: Store, t: Id, target: Target)
    requires KeysOk(st.targets, st.keys) && AliasesOk(st.targets, st.aliases) && SourcesOk(st.targets, st.sources)
    requires t !in st.targets && KeyOf(target) !in st.keys
    ensures KeysOk(st.targets[t := target], st.keys[KeyOf(target) := t])
    ensures AliasesOk(st.targets[t := target], st.aliases) && SourcesOk(st.targets[t := target], st.sources)
  {
    assert forall s :: !Backs(st.sources, s, t);
  }

  lemma WithTargetKeeps(st: Store, sub: Submission, newTarget: Id)
    requires Core(st) && newTarget !in st.targets
    ensures Core(WithTarget(st, sub, newTarget))
    ensures TargetFor(st, sub, newTarget) in WithTarget(st, sub, newTarget).targets
    ensures WithTarget(st, sub, newTarget).targets[TargetFor(st, sub, newTarget)].kind == sub.kind
  {
    FoundTargetFits(st, sub);
    if FindTarget(st, sub).None? {
      var target := Target(sub.kind, sub.key, sub.config, NO_COVERAGE);
      NewTargetKeepsNames(st, newTarget, target);
    }
  }

  lemma {:induction false} AddAliasesKeeps(targets: map<Id, Target>, aliases: map<Alias, Id>, kind: SourceType,
                                           names: seq<(string, string)>, t: Id)
    requires AliasesOk(targets, aliases) && t in targets && targets[t].kind == kind
    ensures AliasesOk(targets, AddAliases(aliases, kind, names, t))
    ensures forall i :: 0 <= i < |names| ==>
              Alias(kind, names[i].0, names[i].1) in AddAliases(aliases, kind, names, t)
    decreases |names|
  {
    if names != [] {
      var first := Alias(kind, names[0].0, names[0].1);
      AddAliasesKeeps(targets, aliases[first := t], kind, names[1..], t);
      AliasStays(aliases[first := t], kind, names[1..], t, first);
      forall i | 0 < i < |names| ensures Alias(kind, names[i].0, names[i].1) in AddAliases(aliases, kind, names, t) {
        assert names[1..][i - 1] == names[i];
      }
    }
  }

  lemma {:induction false} AliasStays(aliases: map<Alias, Id>, kind: SourceType, names: seq<(string, string)>, t: Id, a: Alias)
    requires a in aliases && aliases[a] == t
    ensures a in AddAliases(aliases, kind, names, t) && AddAliases(aliases, kind, names, t)[a] == t
    decreases |names|
  {
    if names != [] {
      AliasStays(aliases[Alias(kind, names[0].0, names[0].1) := t], kind, names[1..], t, a);
    }
  }

  lemma NewSourceKeepsSources(targets: map<Id, Target>, sources: map<Id, Source>, jobs: JobMap, s: Id, source: Source)
    requires SourcesOk(targets, sources) && JobsOk(sources, jobs) && s !in sources
    requires source.target.Some? ==> source.target.value in targets && targets[source.target.value].kind == source.kind
    ensures SourcesOk(targets, sources[s := source]) && JobsOk(sources[s := source], jobs)
    ensures forall t :: HasSource(sources, t) ==> HasSource(sources[s := source], t)
    ensures source.target.Some? ==> HasSource(sources[s := source], source.target.value)
  {
    var after := sources[s := source];
    forall x, t | Backs(sources, x, t) ensures Backs(after, x, t) {
    }
    forall t | HasSource(sources, t) ensures HasSource(after, t) {
      var x :| Backs(sources, x, t);
      assert Backs(after, x, t);
    }
    if source.target.Some? {
      assert Backs(after, s, source.target.value);
    }
  }

  lemma NewSourceKeepsCore(st: Store, s: Id, source: Source)
    requires Core(st) && s !in st.sources
    requires source.target.Some? ==> source.target.value in st.targets && st.targets[source.target.value].kind == source.kind
    ensures Core(st.(sources := st.sources[s := source]))
  {
    NewSourceKeepsSources(st.targets, st.sources, st.jobs, s, source);
  }

  lemma WithConfigKeeps(st: Store, sub: Submission, t: Id, s: Id)
    requires Core(st) && t in st.targets && s in st.sources
    ensures Core(WithConfig(st, sub, t, s))
  {
    var merged := Widened(st, sub, t, s);
    var sources := st.sources[s := st.sources[s].(config := merged)];
    var targets := st.targets[t := st.targets[t].(config := merged)];
    SourcesReconfigured(st, sources);
    SameNamesKeepCore(st.(sources := sources), targets);
  }

  lemma AddRequestKeeps(st: Store, id: Id, r: Request)
    requires Core(st) && id !in st.requests
    requires RequestOk(st.targets, st.sources, st.subscriptions, st.jobs, r)
    requires Pending(r) ==> HasActive(st.jobs, r.target)
    requires forall other :: other in st.requests ==> !SameAction(r, st.requests[other])
    ensures Core(AddRequest(st, id, r))
  {
    var requests := st.requests[id := r];
    forall a, b | a in requests && b in requests && SameAction(requests[a], requests[b]) ensures a == b {
      assert SameAction(requests[b], requests[a]);
    }
  }

  /** What a new request of this submission needs of the store it is added to. */
  ghost predicate Ready(st: Store, sub: Submission, t: Id, s: Id) {
    && t in st.targets && Backs(st.sources, s, t)
    && (sub.owner.Some? ==> (sub.owner.value, t) in st.subscriptionIds)
    && forall r :: !IsReplay(st, r, sub, t)
  }

  lemma NewRequestOk(st: Store, sub: Submission, t: Id, s: Id, job: Option<Id>, status: Status)
    requires SubscriptionsOk(st.targets, st.subscriptions, st.subscriptionIds) && Ready(st, sub, t, s)
    requires job.Some? ==> job.value in st.jobs && Backs(st.sources, st.jobs[job.value].source, t)
    ensures RequestOk(st.targets, st.sources, st.subscriptions, st.jobs, NewRequest(st, sub, t, s, job, status))
    ensures forall other :: other in st.requests ==> !SameAction(NewRequest(st, sub, t, s, job, status), st.requests[other])
  {
    forall other | other in st.requests ensures !SameAction(NewRequest(st, sub, t, s, job, status), st.requests[other]) {
      assert !IsReplay(st, other, sub, t);
    }
  }

  lemma RequestStep(st: Store, sub: Submission, t: Id, s: Id, job: Option<Id>, status: Status, id: Id)
    requires Core(st) && Ready(st, sub, t, s) && id !in st.requests
    requires job.Some? ==> job.value in st.jobs && Backs(st.sources, st.jobs[job.value].source, t)
    requires job.None? && status == Waiting ==> HasActive(st.jobs, t)
    ensures Core(AddRequest(st, id, NewRequest(st, sub, t, s, job, status)))
  {
    NewRequestOk(st, sub, t, s, job, status);
    AddRequestKeeps(st, id, NewRequest(st, sub, t, s, job, status));
  }

  lemma NewJobStep(st: Store, sub: Submission, t: Id, s: Id, newRequest: Id, newJob: Id, now: int)
    requires Core(st) && Ready(st, sub, t, s) && newRequest !in st.requests && newJob !in st.jobs && !HasActive(st.jobs, t)
    ensures Core(AddRequest(st.(jobs := st.jobs[newJob := TargetJob(st, t, s, now)]), newRequest,
                            NewRequest(st, sub, t, s, Some(newJob), Waiting)))
  {
    var after := st.(jobs := st.jobs[newJob := TargetJob(st, t, s, now)]);
    NewJobKeepsCore(st, newJob, TargetJob(st, t, s, now));
    ReadyWithJobs(st, after.jobs, sub, t, s);
    RequestStep(after, sub, t, s, Some(newJob), Waiting, newRequest);
  }

  lemma ReadyWithJobs(st: Store, jobs: JobMap, sub: Submission, t: Id, s: Id)
    requires Ready(st, sub, t, s)
    ensures Ready(st.(jobs := jobs), sub, t, s)
  {
    forall r ensures !IsReplay(st.(jobs := jobs), r, sub, t) {
      assert !IsReplay(st, r, sub, t);
    }
  }

  lemma RescopingKeeps(st: Store, kind: SourceType, j: Id)
    requires Core(st) && j in st.jobs && st.jobs[j].source in st.sources
    ensures Core(Rescoped(st, kind, j))
  {
    ReshapingKeepsCore(st, Rescoped(st, kind, j).jobs);
  }

  lemma RescopedStep(st: Store, sub: Submission, t: Id, s: Id, j: Id, newRequest: Id)
    requires Core(st) && Ready(st, sub, t, s) && newRequest !in st.requests && IsActive(st.jobs, j, t)
    requires st.jobs[j].source in st.sources
    ensures Core(AddRequest(Rescoped(st, sub.kind, j), newRequest, NewRequest(st, sub, t, s, Some(j), Waiting)))
  {
    var after := Rescoped(st, sub.kind, j);
    RescopingKeeps(st, sub.kind, j);
    ReadyWithJobs(st, after.jobs, sub, t, s);
    RequestStep(after, sub, t, s, Some(j), Waiting, newRequest);
  }

  lemma WithAnswerKeeps(st: Store, sub: Submission, t: Id, s: Id, answer: Answer, newRequest: Id, newJob: Id, now: int)
    requires Core(st) && Ready(st, sub, t, s) && Fits(st, t, answer) && newRequest !in st.requests && newJob !in st.jobs
    ensures Core(WithAnswer(st, sub, t, s, answer, newRequest, newJob, now))
  {
    match answer
    case Cached => RequestStep(st, sub, t, s, None, Ended(COMPLETED), newRequest);
    case StartsJob => NewJobStep(st, sub, t, s, newRequest, newJob, now);
    case Joins(j) =>
      assert Backs(st.sources, st.jobs[j].source, t);
      RequestStep(st, sub, t, s, Some(j), Joined, newRequest);
    case Takes(j) => RescopedStep(st, sub, t, s, j, newRequest);
    case WaitsForSuccessor => RequestStep(st, sub, t, s, None, Waiting, newRequest);
  }

  lemma WithRequestKeeps(st: Store, sub: Submission, t: Id, s: Id, prior: Config, newRequest: Id, newJob: Id, now: int)
    requires Core(st) && Ready(st, sub, t, s) && newRequest !in st.requests && newJob !in st.jobs
    ensures Core(WithRequest(st, sub, t, s, prior, newRequest, newJob, now))
  {
    DecisionFits(st, sub, t, prior);
    WithAnswerKeeps(st, sub, t, s, Decide(st, sub, t, prior), newRequest, newJob, now);
  }

  // ---- the whole submission ------------------------------------------------------------------

  ghost predicate NoReplay(st: Store, sub: Submission, t: Id) {
    forall r :: !IsReplay(st, r, sub, t)
  }

  lemma SubscriptionFrame(st: Store, sub: Submission, t: Id, newId: Id, now: int)
    ensures var after := WithSubscription(st, sub, t, newId, now);
            && after.targets == st.targets && after.sources == st.sources && after.requests == st.requests
            && after.jobs == st.jobs
            && (sub.owner.Some? ==> (sub.owner.value, t) in after.subscriptionIds)
  {
  }

  lemma EnrolledKeeps(st: Store, sub: Submission, t: Id, s: Id, prior: Config, ids: Choices, now: int)
    requires Core(st) && t in st.targets && Backs(st.sources, s, t) && NoReplay(st, sub, t)
    requires ids.subscription !in st.subscriptions && ids.request !in st.requests && ids.job !in st.jobs
    ensures Core(Enrolled(st, sub, t, s, prior, ids, now))
  {
    var subscribed := WithSubscription(st, sub, t, ids.subscription, now);
    SubscriptionFrame(st, sub, t, ids.subscription, now);
    if sub.owner.Some? {
      EnsureSubscriptionKeeps(st, sub.owner.value, t, ids.subscription, now);
    }
    forall r ensures !IsReplay(subscribed, r, sub, t) {
      assert !IsReplay(st, r, sub, t);
    }
    WithRequestKeeps(subscribed, sub, t, s, prior, ids.request, ids.job, now);
  }

  lemma ConfiguredKeeps(st: Store, sub: Submission, t: Id, s: Id, ids: Choices, now: int)
    requires Core(st) && t in st.targets && Backs(st.sources, s, t) && NoReplay(st, sub, t)
    requires ids.subscription !in st.subscriptions && ids.request !in st.requests && ids.job !in st.jobs
    ensures Core(Configured(st, sub, t, s, ids, now))
  {
    var after := WithConfig(st, sub, t, s);
    WithConfigKeeps(st, sub, t, s);
    forall r ensures !IsReplay(after, r, sub, t) {
      assert !IsReplay(st, r, sub, t);
    }
    EnrolledKeeps(after, sub, t, s, st.sources[s].config, ids, now);
  }

  lemma SourcedKeeps(st: Store, sub: Submission, t: Id, ids: Choices, now: int)
    requires Core(st) && t in st.targets && st.targets[t].kind == sub.kind && NoReplay(st, sub, t)
    requires ids.source !in st.sources && (ids.primary.Some? ==> Backs(st.sources, ids.primary.value, t))
    requires ids.subscription !in st.subscriptions && ids.request !in st.requests && ids.job !in st.jobs
    ensures Core(Configured(WithSource(st, sub, t, ids.source, ids.primary, now), sub, t,
            ids.primary.GetOr(ids.source), ids, now))
  {
    var after := WithSource(st, sub, t, ids.source, ids.primary, now);
    if ids.primary.None? {
      NewSourceKeepsCore(st, ids.source, Source(sub.kind, sub.config, Some(t), None, now));
    }
    forall r ensures !IsReplay(after, r, sub, t) {
      assert !IsReplay(st, r, sub, t);
    }
    ConfiguredKeeps(after, sub, t, ids.primary.GetOr(ids.source), ids, now);
  }

  lemma NamedKeeps(st: Store, sub: Submission, newTarget: Id)
    requires Core(st) && newTarget !in st.targets
    ensures var t := TargetFor(st, sub, newTarget);
            var named := WithAliases(WithTarget(st, sub, newTarget), sub, t);
            && Core(named) && t in named.targets && named.targets[t].kind == sub.kind
  {
    var t, targeted := TargetFor(st, sub, newTarget), WithTarget(st, sub, newTarget);
    WithTargetKeeps(st, sub, newTarget);
    AddAliasesKeeps(targeted.targets, targeted.aliases, sub.kind, sub.aliases, t);
  }

  lemma NamedFrame(st: Store, sub: Submission, newTarget: Id, t: Id)
    ensures var named := WithAliases(WithTarget(st, sub, newTarget), sub, t);
            && named.sources == st.sources && named.requests == st.requests && named.jobs == st.jobs
            && named.subscriptions == st.subscriptions
  {
  }

  /** Accepting a request keeps the tables consistent, whichever of its five answers it gets. */
  lemma SubmitKeeps(st: Store, sub: Submission, ids: Choices, now: int)
    requires Core(st) && FreshChoices(st, sub, ids)
    ensures Core(Submit(st, sub, ids, now))
  {
    var t := TargetFor(st, sub, ids.target);
    if NoReplay(st, sub, t) {
      var named := WithAliases(WithTarget(st, sub, ids.target), sub, t);
      NamedKeeps(st, sub, ids.target);
      NamedFrame(st, sub, ids.target, t);
      PrimaryBacks(st, t, ids.primary);
      forall r ensures !IsReplay(named, r, sub, t) {
        assert !IsReplay(st, r, sub, t);
      }
      SourcedKeeps(named, sub, t, ids, now);
    }
  }

  // ---- every target keeps a worker source ------------------------------------------------------

  lemma AnswerFrame(st: Store, sub: Submission, t: Id, s: Id, answer: Answer, newRequest: Id, newJob: Id, now: int)
    requires s in st.sources
    ensures var after := WithAnswer(st, sub, t, s, answer, newRequest, newJob, now);
            && after.targets == st.targets && after.sources == st.sources
            && newRequest in after.requests
            && after.requests[newRequest].key == sub.idempotencyKey && after.requests[newRequest].user == sub.owner
            && after.requests[newRequest].target == t && after.requests[newRequest].config == sub.config
  {
  }

  lemma ConfiguredFrame(st: Store, sub: Submission, t: Id, s: Id, ids: Choices, now: int)
    ensures var after := Configured(st, sub, t, s, ids, now);
            && after.targets.Keys == st.targets.Keys && SameBacking(st.sources, after.sources)
            && (t in st.targets && s in st.sources ==>
                  && ids.request in after.requests
                  && after.requests[ids.request].key == sub.idempotencyKey && after.requests[ids.request].user == sub.owner
                  && after.requests[ids.request].target == t && after.requests[ids.request].config == sub.config)
  {
    if t in st.targets && s in st.sources {
      var configured := WithConfig(st, sub, t, s);
      SubscriptionFrame(configured, sub, t, ids.subscription, now);
      var subscribed := WithSubscription(configured, sub, t, ids.subscription, now);
      AnswerFrame(subscribed, sub, t, s, Decide(subscribed, sub, t, st.sources[s].config), ids.request, ids.job, now);
    }
  }

  lemma BackingKept(before: map<Id, Source>, after: map<Id, Source>, u: Id)
    requires SameBacking(before, after) && HasSource(before, u)
    ensures HasSource(after, u)
  {
    var x :| Backs(before, x, u);
    assert Backs(after, x, u);
  }

  lemma TargetedFacts(st: Store, sub: Submission, newTarget: Id)
    requires KeysOk(st.targets, st.keys) && AliasesOk(st.targets, st.aliases)
    ensures var t, targeted := TargetFor(st, sub, newTarget), WithTarget(st, sub, newTarget);
            && t in targeted.targets && targeted.targets.Keys == st.targets.Keys + {t}
            && targeted.targets[t].kind == sub.kind
            && targeted.sources == st.sources && targeted.requests == st.requests && targeted.jobs == st.jobs
  {
    FoundTargetFits(st, sub);
  }

  lemma PlacedFacts(st: Store, sub: Submission, ids: Choices, now: int)
    requires KeysOk(st.targets, st.keys) && AliasesOk(st.targets, st.aliases)
    requires RequestsOk(st.targets, st.sources, st.subscriptions, st.jobs, st.requests)
    requires FreshChoices(st, sub, ids)
    ensures var t, s, placed := TargetFor(st, sub, ids.target), ids.primary.GetOr(ids.source), Placed(st, sub, ids, now);
            && t in placed.targets && placed.targets[t].kind == sub.kind && Backs(placed.sources, s, t)
            && placed.targets.Keys == st.targets.Keys + {t} && placed.requests == st.requests && placed.jobs == st.jobs
            && (forall x :: x in st.sources ==> x in placed.sources && placed.sources[x] == st.sources[x])
  {
    var t := TargetFor(st, sub, ids.target);
    TargetedFacts(st, sub, ids.target);
    PrimaryBacks(st, t, ids.primary);
  }

  lemma ConfiguredKeepsSourced(st: Store, sub: Submission, t: Id, s: Id, ids: Choices, now: int)
    requires Sourced(st.targets, st.sources)
    ensures Sourced(Configured(st, sub, t, s, ids, now).targets, Configured(st, sub, t, s, ids, now).sources)
  {
    ConfiguredFrame(st, sub, t, s, ids, now);
    forall u | u in st.targets ensures HasSource(Configured(st, sub, t, s, ids, now).sources, u) {
      BackingKept(st.sources, Configured(st, sub, t, s, ids, now).sources, u);
    }
  }

  lemma SubmitKeepsSourced(st: Store, sub: Submission, ids: Choices, now: int)
    requires KeysOk(st.targets, st.keys) && AliasesOk(st.targets, st.aliases)
    requires RequestsOk(st.targets, st.sources, st.subscriptions, st.jobs, st.requests) && Sourced(st.targets, st.sources)
    requires FreshChoices(st, sub, ids)
    ensures Sourced(Submit(st, sub, ids, now).targets, Submit(st, sub, ids, now).sources)
  {
    var t, s := TargetFor(st, sub, ids.target), ids.primary.GetOr(ids.source);
    PlacedKeepsSourced(st, sub, ids, now);
    ConfiguredKeepsSourced(Placed(st, sub, ids, now), sub, t, s, ids, now);
  }

  lemma PlacedKeepsSourced(st: Store, sub: Submission, ids: Choices, now: int)
    requires KeysOk(st.targets, st.keys) && AliasesOk(st.targets, st.aliases)
    requires RequestsOk(st.targets, st.sources, st.subscriptions, st.jobs, st.requests) && Sourced(st.targets, st.sources)
    requires FreshChoices(st, sub, ids)
    ensures Sourced(Placed(st, sub, ids, now).targets, Placed(st, sub, ids, now).sources)
  {
    PlacedFacts(st, sub, ids, now);
    var placed := Placed(st, sub, ids, now);
    PlacedSourced(st, placed.targets, placed.sources, ids, TargetFor(st, sub, ids.target));
  }

  lemma PlacedSourced(st: Store, targets: map<Id, Target>, sources: map<Id, Source>, ids: Choices, t: Id)
    requires Sourced(st.targets, st.sources) && targets.Keys == st.targets.Keys + {t}
    requires forall s :: s in st.sources ==> s in sources && sources[s] == st.sources[s]
    requires Backs(sources, ids.primary.GetOr(ids.source), t)
    ensures Sourced(targets, sources)
  {
    forall u | u in targets ensures HasSource(sources, u) {
      if u != t {
        var x :| Backs(st.sources, x, u);
        assert Backs(sources, x, u);
      }
    }
  }

  // ---- replays ---------------------------------------------------------------------------------

  /** The public source id a stored request is answered with; the code raises an error when the
      request points to a subscription that is gone. */
  function AnswerSource(st: Store, r: Request): Result<Id, Error> {
    if r.target !in st.targets then Failure(NotFound)
    else if r.subscription.Some? then
      if r.subscription.value in st.subscriptions then Success(r.subscription.value) else Failure(NotFound)
    else if r.source in st.sources then Success(r.source) else Failure(NotFound)
  }

  /** A replay leaves the store unchanged and is answered with the one original request, through the
      caller's own subscription; the missing-subscription error cannot happen. */
  lemma ReplayIsHarmless(st: Store, sub: Submission, ids: Choices, now: int, r: Id)
    requires Inv(st) && IsReplay(st, r, sub, TargetFor(st, sub, ids.target))
    ensures Submit(st, sub, ids, now) == st
    ensures forall other :: IsReplay(st, other, sub, TargetFor(st, sub, ids.target)) ==> other == r
    ensures AnswerSource(st, st.requests[r]).Success?
    ensures sub.owner.Some? ==>
              && AnswerSource(st, st.requests[r]).value in st.subscriptions
              && st.subscriptions[AnswerSource(st, st.requests[r]).value]
                 .user == sub.owner.value
  {
    assert RequestOk(st.targets, st.sources, st.subscriptions, st.jobs, st.requests[r]);
    forall other | IsReplay(st, other, sub, TargetFor(st, sub, ids.target)) ensures other == r {
      assert SameAction(st.requests[other], st.requests[r]);
    }
  }

  /** A submission without a key, or with an empty one, replays nothing. */
  lemma UnkeyedNeverReplays(st: Store, sub: Submission, t: Id)
    requires sub.idempotencyKey.None? || sub.idempotencyKey.value == ""
    ensures NoReplay(st, sub, t)
  {
  }

  /** The names of a submission lead back to the target they were recorded for. */
  lemma AliasesLeadBack(aliases: map<Alias, Id>, kind: SourceType, names: seq<(string, string)>, t: Id)
    requires names != []
    ensures FirstAlias(AddAliases(aliases, kind, names, t), kind, names) == Some(t)
  {
    var first := Alias(kind, names[0].0, names[0].1);
    AliasStays(aliases[first := t], kind, names[1..], t, first);
  }

  lemma SubscriptionKeepsNames(st: Store, sub: Submission, t: Id, newId: Id, now: int)
    ensures WithSubscription(st, sub, t, newId, now).aliases == st.aliases
    ensures WithSubscription(st, sub, t, newId, now).keys == st.keys
  {
  }

  lemma AnswerKeepsNames(st: Store, sub: Submission, t: Id, s: Id, answer: Answer, newRequest: Id, newJob: Id, now: int)
    requires s in st.sources
    ensures WithAnswer(st, sub, t, s, answer, newRequest, newJob, now).aliases == st.aliases
    ensures WithAnswer(st, sub, t, s, answer, newRequest, newJob, now).keys == st.keys
  {
  }

  lemma ConfiguredKeepsNames(st: Store, sub: Submission, t: Id, s: Id, ids: Choices, now: int)
    ensures Configured(st, sub, t, s, ids, now).aliases == st.aliases
    ensures Configured(st, sub, t, s, ids, now).keys == st.keys
  {
    if t in st.targets && s in st.sources {
      var configured := WithConfig(st, sub, t, s);
      SubscriptionKeepsNames(configured, sub, t, ids.subscription, now);
      SubscriptionFrame(configured, sub, t, ids.subscription, now);
      var subscribed := WithSubscription(configured, sub, t, ids.subscription, now);
      AnswerKeepsNames(subscribed, sub, t, s, Decide(subscribed, sub, t, st.sources[s].config), ids.request, ids.job, now);
    }
  }

  lemma LookedUpAgain(aliases: map<Alias, Id>, keys: map<(SourceType, string), Id>, sub: Submission, newTarget: Id)
    ensures var found := LookUp(aliases, keys, sub);
            LookUp(AddAliases(aliases, sub.kind, sub.aliases, found.GetOr(newTarget)),
                   if found.Some? then keys else keys[(sub.kind, sub.key) := newTarget], sub) == Some(found.GetOr(newTarget))
  {
    if sub.aliases != [] {
      AliasesLeadBack(aliases, sub.kind, sub.aliases, LookUp(aliases, keys, sub).GetOr(newTarget));
    }
  }

  /** A later look-up with the same names and key finds the target the submission was placed on. */
  lemma PlacedIsFoundAgain(st: Store, sub: Submission, ids: Choices, now: int)
    ensures FindTarget(Placed(st, sub, ids, now), sub) == Some(TargetFor(st, sub, ids.target))
  {
    LookedUpAgain(st.aliases, st.keys, sub, ids.target);
  }

  /** Submitting the same keyed request twice in a row makes one request. */
  lemma SubmitTwice(st: Store, sub: Submission, ids: Choices, again: Choices, now: int, later: int)
    requires Inv(st) && FreshChoices(st, sub, ids) && sub.idempotencyKey.Some? && sub.idempotencyKey.value != ""
    ensures var once := Submit(st, sub, ids, now);
            Submit(once, sub, again, later) == once
  {
    var t := TargetFor(st, sub, ids.target);
    var once := Submit(st, sub, ids, now);
    if NoReplay(st, sub, t) {
      RequestRecorded(st, sub, ids, now);
      PlacedIsFoundAgain(st, sub, ids, now);
      ConfiguredKeepsNames(Placed(st, sub, ids, now), sub, t, ids.primary.GetOr(ids.source), ids, now);
      assert IsReplay(once, ids.request, sub, t);
    } else {
      var r :| IsReplay(st, r, sub, t);
      assert RequestOk(st.targets, st.sources, st.subscriptions, st.jobs, st.requests[r]);
    }
  }

  lemma RequestRecorded(st: Store, sub: Submission, ids: Choices, now: int)
    requires KeysOk(st.targets, st.keys) && AliasesOk(st.targets, st.aliases)
    requires RequestsOk(st.targets, st.sources, st.subscriptions, st.jobs, st.requests)
    requires FreshChoices(st, sub, ids) && NoReplay(st, sub, TargetFor(st, sub, ids.target))
    ensures var t := TargetFor(st, sub, ids.target);
            var after := Submit(st, sub, ids, now);
            && ids.request in after.requests
            && after.requests[ids.request].key == sub.idempotencyKey && after.requests[ids.request].user == sub.owner
            && after.requests[ids.request].target == t && after.requests[ids.request].config == sub.config
  {
    PlacedFacts(st, sub, ids, now);
    ConfiguredFrame(Placed(st, sub, ids, now), sub, TargetFor(st, sub, ids.target), ids.primary.GetOr(ids.source), ids, now);
  }

  // ---- what else a submission touches ------------------------------------------------------------

  /** All records but this one stay as they were. */
  ghost predicate Others<V>(before: map<Id, V>, after: map<Id, V>, x: Id) {
    forall k :: k in before && k != x ==> k in after && after[k] == before[k]
  }

  predicate OnlyRescoped(before: Job, after: Job, t: Id) {
    after == before || (before.target == Some(t) && before.state == QUEUED && after == before.(scope := after.scope))
  }

  /** At most one job is new, and at most a queued job of the target changes, and of that only the scope. */
  ghost predicate JobsTouched(before: JobMap, after: JobMap, t: Id, job: Id) {
    && (forall j :: j in before && j != job ==> j in after && OnlyRescoped(before[j], after[j], t))
    && after.Keys <= before.Keys + {job}
  }

  ghost predicate TouchesOnly(st: Store, after: Store, t: Id, s: Id, request: Id, job: Id) {
    && Others(st.targets, after.targets, t)
    && Others(st.sources, after.sources, s)
    && Others(st.requests, after.requests, request) && after.requests.Keys == st.requests.Keys + {request}
    && JobsTouched(st.jobs, after.jobs, t, job)
    && after.targetVideos == st.targetVideos && after.firstSeen == st.firstSeen
  }

  lemma AnswerAddsRequest(st: Store, sub: Submission, t: Id, s: Id, answer: Answer, newRequest: Id, newJob: Id, now: int)
    requires s in st.sources
    ensures var after := WithAnswer(st, sub, t, s, answer, newRequest, newJob, now);
            && Others(st.requests, after.requests, newRequest) && after.requests.Keys == st.requests.Keys + {newRequest}
            && after.targetVideos == st.targetVideos && after.firstSeen == st.firstSeen
  {
  }

  ghost function JobsAfter(st: Store, sub: Submission, t: Id, s: Id, answer: Answer, newJob: Id, now: int): JobMap
    requires s in st.sources
  {
    match answer
    case StartsJob => st.jobs[newJob := TargetJob(st, t, s, now)]
    case Takes(j) => if j in st.jobs && st.jobs[j].source in st.sources then Rescoped(st, sub.kind, j).jobs else st.jobs
    case Cached => st.jobs
    case Joins(_) => st.jobs
    case WaitsForSuccessor => st.jobs
  }

  lemma AnswerJobs(st: Store, sub: Submission, t: Id, s: Id, answer: Answer, newRequest: Id, newJob: Id, now: int)
    requires s in st.sources
    ensures WithAnswer(st, sub, t, s, answer, newRequest, newJob, now).jobs == JobsAfter(st, sub, t, s, answer, newJob, now)
  {
  }

  lemma AnswerTouchesJobs(st: Store, sub: Submission, t: Id, s: Id, answer: Answer, newRequest: Id, newJob: Id, now: int)
    requires s in st.sources && Fits(st, t, answer)
    ensures JobsTouched(st.jobs, WithAnswer(st, sub, t, s, answer, newRequest, newJob, now).jobs, t, newJob)
  {
    AnswerJobs(st, sub, t, s, answer, newRequest, newJob, now);
    if answer.Takes? && st.jobs[answer.job].source in st.sources {
      RescopedTouches(st, sub.kind, answer.job, t, newJob);
    } else if answer.StartsJob? {
      NewJobTouches(st.jobs, newJob, TargetJob(st, t, s, now), t);
    }
  }

  lemma RescopedTouches(st: Store, kind: SourceType, j: Id, t: Id, newJob: Id)
    requires IsActive(st.jobs, j, t) && st.jobs[j].state == QUEUED && st.jobs[j].source in st.sources
    ensures JobsTouched(st.jobs, Rescoped(st, kind, j).jobs, t, newJob)
  {
  }

  lemma NewJobTouches(jobs: JobMap, newJob: Id, job: Job, t: Id)
    ensures JobsTouched(jobs, jobs[newJob := job], t, newJob)
  {
  }

  lemma SubscriptionTouches(st: Store, sub: Submission, t: Id, newId: Id, now: int)
    ensures var after := WithSubscription(st, sub, t, newId, now);
            after == st.(subscriptions := after.subscriptions, subscriptionIds := after.subscriptionIds, pins := after.pins)
  {
  }

  lemma EnrolledTouches(st: Store, sub: Submission, t: Id, s: Id, prior: Config, ids: Choices, now: int)
    requires t in st.targets && s in st.sources
    ensures var after := Enrolled(st, sub, t, s, prior, ids, now);
            after.targets == st.targets && after.sources == st.sources && TouchesOnly(st, after, t, s, ids.request, ids.job)
  {
    SubscriptionTouches(st, sub, t, ids.subscription, now);
    var subscribed := WithSubscription(st, sub, t, ids.subscription, now);
    DecisionFits(subscribed, sub, t, prior);
    var answer := Decide(subscribed, sub, t, prior);
    AnswerFrame(subscribed, sub, t, s, answer, ids.request, ids.job, now);
    AnswerAddsRequest(subscribed, sub, t, s, answer, ids.request, ids.job, now);
    AnswerTouchesJobs(subscribed, sub, t, s, answer, ids.request, ids.job, now);
  }

  /** Source and target end up with the same config, the merged one. */
  ghost predicate BothWidened(st: Store, after: Store, sub: Submission, t: Id, s: Id)
    requires t in st.targets && s in st.sources
  {
    && t in after.targets && s in after.sources
    && after.targets[t] == st.targets[t].(config := Widened(st, sub, t, s))
    && after.sources[s] == st.sources[s].(config := Widened(st, sub, t, s))
  }

  lemma ConfiguredTouches(st: Store, sub: Submission, t: Id, s: Id, ids: Choices, now: int)
    requires t in st.targets && s in st.sources
    ensures TouchesOnly(st, Configured(st, sub, t, s, ids, now), t, s, ids.request, ids.job)
    ensures BothWidened(st, Configured(st, sub, t, s, ids, now), sub, t, s)
  {
    EnrolledTouches(WithConfig(st, sub, t, s), sub, t, s, st.sources[s].config, ids, now);
  }

  /** Placing a submission adds at most a target and a source. */
  ghost predicate AddsPlace(st: Store, placed: Store, sub: Submission, t: Id, s: Id) {
    && Others(st.targets, placed.targets, t) && Others(st.sources, placed.sources, s)
    && placed.requests == st.requests && placed.jobs == st.jobs
    && placed.targetVideos == st.targetVideos && placed.firstSeen == st.firstSeen
    && t in placed.targets && s in placed.sources
    && placed.targets[t] == (if t in st.targets then st.targets[t] else Target(sub.kind, sub.key, sub.config, NO_COVERAGE))
  }

  lemma PlacedTouches(st: Store, sub: Submission, ids: Choices, now: int)
    requires KeysOk(st.targets, st.keys) && AliasesOk(st.targets, st.aliases) && ids.target !in st.targets
    requires ids.primary.Some? ==> ids.primary.value in st.sources
    ensures AddsPlace(st, Placed(st, sub, ids, now), sub, TargetFor(st, sub, ids.target), ids.primary.GetOr(ids.source))
  {
    var t := TargetFor(st, sub, ids.target);
    var named := WithAliases(WithTarget(st, sub, ids.target), sub, t);
    TargetTouches(st, sub, ids.target);
    NamedTouches(st, sub, ids.target);
    SourceTouches(named, sub, t, ids, now);
  }

  lemma TargetTouches(st: Store, sub: Submission, newTarget: Id)
    requires KeysOk(st.targets, st.keys) && AliasesOk(st.targets, st.aliases) && newTarget !in st.targets
    ensures var t, after := TargetFor(st, sub, newTarget), WithTarget(st, sub, newTarget);
            && after == st.(targets := after.targets, keys := after.keys)
            && Others(st.targets, after.targets, t) && t in after.targets
            && after.targets[t] == (if t in st.targets then st.targets[t]
                                    else Target(sub.kind, sub.key, sub.config, NO_COVERAGE))
  {
    FoundTargetFits(st, sub);
  }

  lemma NamedTouches(st: Store, sub: Submission, newTarget: Id)
    requires KeysOk(st.targets, st.keys) && AliasesOk(st.targets, st.aliases) && newTarget !in st.targets
    ensures var t := TargetFor(st, sub, newTarget);
            var targeted, named := WithTarget(st, sub, newTarget), WithAliases(WithTarget(st, sub, newTarget), sub, t);
            named == st.(targets := targeted.targets, keys := targeted.keys, aliases := named.aliases)
  {
    TargetTouches(st, sub, newTarget);
  }

  lemma SourceTouches(st: Store, sub: Submission, t: Id, ids: Choices, now: int)
    requires ids.primary.Some? ==> ids.primary.value in st.sources
    ensures var after, s := WithSource(st, sub, t, ids.source, ids.primary, now), ids.primary.GetOr(ids.source);
            after == st.(sources := after.sources) && Others(st.sources, after.sources, s) && s in after.sources
  {
  }

  /** Apart from the target, the worker source, the request and a job, a submission changes no record that a
      job, another request or a reader looks at. */
  lemma SubmissionTouchesOnly(st: Store, sub: Submission, ids: Choices, now: int)
    requires KeysOk(st.targets, st.keys) && AliasesOk(st.targets, st.aliases)
    requires RequestsOk(st.targets, st.sources, st.subscriptions, st.jobs, st.requests)
    requires FreshChoices(st, sub, ids) && NoReplay(st, sub, TargetFor(st, sub, ids.target))
    ensures TouchesOnly(st, Submit(st, sub, ids, now), TargetFor(st, sub, ids.target), ids.primary.GetOr(ids.source),
                        ids.request, ids.job)
  {
    var t, s := TargetFor(st, sub, ids.target), ids.primary.GetOr(ids.source);
    PlacedFacts(st, sub, ids, now);
    PlacedTouches(st, sub, ids, now);
    ConfiguredTouches(Placed(st, sub, ids, now), sub, t, s, ids, now);
  }

  /** From then on the target asks for all the work that the request asks for, and its worker source for the
      same as the target. What has been collected for the target stays on record. */
  lemma SubmissionWidens(st: Store, sub: Submission, ids: Choices, now: int, w: Work)
    requires KeysOk(st.targets, st.keys) && AliasesOk(st.targets, st.aliases)
    requires RequestsOk(st.targets, st.sources, st.subscriptions, st.jobs, st.requests)
    requires FreshChoices(st, sub, ids) && NoReplay(st, sub, TargetFor(st, sub, ids.target)) && HasLimit(sub.kind, sub.config)
    ensures var after, t, s := Submit(st, sub, ids, now), TargetFor(st, sub, ids.target), ids.primary.GetOr(ids.source);
            && t in after.targets && s in after.sources && after.sources[s].config == after.targets[t].config
            && (Asks(sub.kind, sub.config, w) ==> Asks(sub.kind, after.targets[t].config, w))
            && (t in st.targets ==> after.targets[t].coverage == st.targets[t].coverage)
            && (t !in st.targets ==> !after.targets[t].coverage.complete && !Includes(after.targets[t].coverage, w))
  {
    var t, s := TargetFor(st, sub, ids.target), ids.primary.GetOr(ids.source);
    PlacedFacts(st, sub, ids, now);
    PlacedTouches(st, sub, ids, now);
    ConfiguredTouches(Placed(st, sub, ids, now), sub, t, s, ids, now);
    var placed, after := Placed(st, sub, ids, now), Submit(st, sub, ids, now);
    assert after.targets[t].coverage == placed.targets[t].coverage;
    if Asks(sub.kind, sub.config, w) {
      WidenedAsks(placed, sub, t, s, w);
    }
  }

  lemma WidenedAsks(st: Store, sub: Submission, t: Id, s: Id, w: Work)
    requires t in st.targets && s in st.sources && HasLimit(sub.kind, sub.config) && Asks(sub.kind, sub.config, w)
    ensures Asks(sub.kind, Widened(st, sub, t, s), w)
  {
    MergeAsksForIncoming(sub.kind, Merge(sub.kind, st.sources[s].config, st.targets[t].config), sub.config, w);
  }

  // ---- how a request is answered -----------------------------------------------------------------

  ghost predicate CoveredBy(st: Store, sub: Submission, t: Id) {
    !sub.forceRefresh && t in st.targets && Satisfies(st.targets[t].coverage, Desired(sub.kind, sub.config))
  }

  ghost predicate NoneQueued(jobs: JobMap, t: Id) {
    forall j :: IsActive(jobs, j, t) ==> jobs[j].state != QUEUED
  }

  /** A request is over at once exactly when recorded coverage answers it. Otherwise it waits: for a
      queued job of its target, or, when the target's job has already started, for that job to end. */
  ghost predicate ServedBy(jobs: JobMap, r: Request, t: Id, covered: bool) {
    if covered then r.status == Ended(COMPLETED) && r.job.None?
    else
      && r.status == Waiting
      && match r.job
         case Some(j) => IsActive(jobs, j, t) && jobs[j].state == QUEUED
         case None => HasActive(jobs, t) && NoneQueued(jobs, t)
  }

  ghost predicate Served(st: Store, r: Id, t: Id, covered: bool) {
    r in st.requests && ServedBy(st.jobs, st.requests[r], t, covered)
  }

  lemma DecisionMeans(st: Store, sub: Submission, t: Id, prior: Config)
    requires OneActive(st.jobs) && t in st.targets
    ensures Decide(st, sub, t, prior).Cached? <==> CoveredBy(st, sub, t)
    ensures Decide(st, sub, t, prior).WaitsForSuccessor? ==> NoneQueued(st.jobs, t)
  {
  }

  lemma AddedIsServed(st: Store, id: Id, r: Request, t: Id, covered: bool)
    requires ServedBy(st.jobs, r, t, covered)
    ensures Served(AddRequest(st, id, r), id, t, covered)
  {
  }

  lemma TakenServes(st: Store, sub: Submission, t: Id, s: Id, j: Id, newRequest: Id, newJob: Id, now: int)
    requires s in st.sources && Fits(st, t, Takes(j))
    ensures Served(WithAnswer(st, sub, t, s, Takes(j), newRequest, newJob, now), newRequest, t, false)
  {
    var rescoped := if st.jobs[j].source in st.sources then Rescoped(st, sub.kind, j) else st;
    AddedIsServed(rescoped, newRequest, NewRequest(st, sub, t, s, Some(j), Waiting), t, false);
  }

  lemma AnswerServes(st: Store, sub: Submission, t: Id, s: Id, answer: Answer, newRequest: Id, newJob: Id, now: int)
    requires s in st.sources && Fits(st, t, answer) && !answer.Joins?
    requires answer.WaitsForSuccessor? ==> NoneQueued(st.jobs, t)
    ensures Served(WithAnswer(st, sub, t, s, answer, newRequest, newJob, now), newRequest, t, answer.Cached?)
  {
    match answer
    case Cached => AddedIsServed(st, newRequest, NewRequest(st, sub, t, s, None, Ended(COMPLETED)), t, true);
    case StartsJob =>
    case Takes(j) => TakenServes(st, sub, t, s, j, newRequest, newJob, now);
    case WaitsForSuccessor => AddedIsServed(st, newRequest, NewRequest(st, sub, t, s, None, Waiting), t, false);
  }

  lemma ConfiguredServes(st: Store, sub: Submission, t: Id, s: Id, ids: Choices, now: int)
    requires OneActive(st.jobs) && t in st.targets && s in st.sources
    ensures Served(Configured(st, sub, t, s, ids, now), ids.request, t, CoveredBy(st, sub, t))
  {
    var configured, prior := WithConfig(st, sub, t, s), st.sources[s].config;
    SubscriptionFrame(configured, sub, t, ids.subscription, now);
    var subscribed := WithSubscription(configured, sub, t, ids.subscription, now);
    DecisionFits(subscribed, sub, t, prior);
    DecisionMeans(subscribed, sub, t, prior);
    AnswerServes(subscribed, sub, t, s, Decide(subscribed, sub, t, prior), ids.request, ids.job, now);
  }

  /** The target's record includes all the work this submission asks for. */
  ghost predicate CollectedFor(st: Store, sub: Submission, t: Id) {
    t in st.targets && Collected(st.targets[t].coverage, sub.kind, sub.config)
  }

  /** And reaches its limits too. */
  ghost predicate ReachedFor(st: Store, sub: Submission, t: Id) {
    CollectedFor(st, sub, t) && LimitsReached(st.targets[t].coverage, sub.kind, sub.config) && Positive(sub.kind, sub.config)
  }

  lemma CoveredMeans(st: Store, sub: Submission, t: Id)
    ensures CoveredBy(st, sub, t) ==> !sub.forceRefresh && CollectedFor(st, sub, t)
    ensures !sub.forceRefresh && ReachedFor(st, sub, t) ==> CoveredBy(st, sub, t)
  {
    if CoveredBy(st, sub, t) {
      SatisfiedIsCollected(st.targets[t].coverage, sub.kind, sub.config);
    }
    if ReachedFor(st, sub, t) {
      CollectedSatisfies(st.targets[t].coverage, sub.kind, sub.config);
    }
  }

  predicate AnsweredAtOnce(r: Request) {
    r.status == Ended(COMPLETED) && r.job.None?
  }

  /** Every request that is not a replay is recorded under its own key, for its user and target. It is
      over at once only when all the work it asks for has been collected, and always when the limits
      are reached too; otherwise it is queued. */
  lemma SubmissionIsServed(st: Store, sub: Submission, ids: Choices, now: int)
    requires Core(st) && FreshChoices(st, sub, ids) && NoReplay(st, sub, TargetFor(st, sub, ids.target))
    ensures var t := TargetFor(st, sub, ids.target);
            var after := Submit(st, sub, ids, now);
            && ids.request in after.requests
            && var r := after.requests[ids.request];
               && r.key == sub.idempotencyKey && r.user == sub.owner && r.target == t && r.config == sub.config
               && (AnsweredAtOnce(r) || ServedBy(after.jobs, r, t, false))
               && (AnsweredAtOnce(r) ==> !sub.forceRefresh && CollectedFor(st, sub, t))
               && (!sub.forceRefresh && ReachedFor(st, sub, t) ==> AnsweredAtOnce(r))
  {
    RequestRecorded(st, sub, ids, now);
    PlacedFacts(st, sub, ids, now);
    PlacedCoverage(st, sub, ids, now);
    ConfiguredServes(Placed(st, sub, ids, now), sub, TargetFor(st, sub, ids.target), ids.primary.GetOr(ids.source), ids, now);
    CoveredMeans(st, sub, TargetFor(st, sub, ids.target));
  }

  lemma PlacedCoverage(st: Store, sub: Submission, ids: Choices, now: int)
    requires ids.target !in st.targets
    ensures var t := TargetFor(st, sub, ids.target);
            CoveredBy(Placed(st, sub, ids, now), sub, t) == CoveredBy(st, sub, t)
  {
    var t, targeted := TargetFor(st, sub, ids.target), WithTarget(st, sub, ids.target);
    assert Placed(st, sub, ids, now).targets == targeted.targets;
  }

}
