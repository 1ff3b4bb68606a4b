/** The collection coordinator's tables and what every operation keeps true of them:
    apps/api/monitube_api/infrastructure/memory_repository.py */
module Store {
  import opened Common
  import opened CollectionPolicy
  import opened Jobs

  datatype Target = Target(kind: SourceType, key: string, config: Config, coverage: Coverage)

  /** A worker-facing source; a legacy one has an owner instead of a target. */
  datatype Source = Source(kind: SourceType, config: Config, target: Option<Id>, owner: Option<Id>, created: int)

  datatype Subscription = Subscription(user: Id, target: Id, enabled: bool)

  /** "queued", "joined", or the state its job ended in; a request answered from recorded coverage
      is "completed" from the start. */
  datatype Status = Waiting | Joined | Ended(state: JobState)

  datatype Request = Request(
    target: Id,
    source: Id,
    config: Config,
    key: Option<string>,
    job: Option<Id>,
    status: Status,
    user: Option<Id>,
    subscription: Option<Id>)

  datatype Pin = Pin(enabled: bool, interval: nat, nextRun: int, lastDispatched: Option<int>)

  datatype Alias = Alias(kind: SourceType, name: string, value: string)

  datatype Store = Tables(
    targets: map<Id, Target>,
    keys: map<(SourceType, string), Id>,
    aliases: map<Alias, Id>,
    sources: map<Id, Source>,
    subscriptions: map<Id, Subscription>,
    subscriptionIds: map<(Id, Id), Id>,
    requests: map<Id, Request>,
    jobs: JobMap,
    targetVideos: map<Id, set<Id>>,
    firstSeen: map<(Id, Id), int>,
    pins: map<Id, Pin>)

  const EMPTY := Tables(map[], map[], map[], map[], map[], map[], map[], map[], map[], map[], map[])

  datatype Error = NotFound | InvalidTransition | TargetBusy | NoWorkerSource

  // ---- well-formedness, table by table -----------------------------------------------

  function KeyOf(t: Target): (SourceType, string) {
    (t.kind, t.key)
  }

  /** The key index and the targets match one to one. */
  ghost predicate KeysOk(targets: map<Id, Target>, keys: map<(SourceType, string), Id>) {
    && (forall k :: k in keys ==> keys[k] in targets && KeyOf(targets[keys[k]]) == k)
    && (forall t :: t in targets ==> KeyOf(targets[t]) in keys && keys[KeyOf(targets[t])] == t)
  }

  ghost predicate AliasesOk(targets: map<Id, Target>, aliases: map<Alias, Id>) {
    forall a :: a in aliases ==> aliases[a] in targets && targets[aliases[a]].kind == a.kind
  }

  predicate Backs(sources: map<Id, Source>, s: Id, t: Id) {
    s in sources && sources[s].target == Some(t)
  }

  ghost predicate SourcesOk(targets: map<Id, Target>, sources: map<Id, Source>) {
    forall s, t :: Backs(sources, s, t) ==> t in targets && targets[t].kind == sources[s].kind
  }

  ghost predicate HasSource(sources: map<Id, Source>, t: Id) {
    exists s :: Backs(sources, s, t)
  }

  /** Every target has a source a worker can collect. */
  ghost predicate Sourced(targets: map<Id, Target>, sources: map<Id, Source>) {
    forall t :: t in targets ==> HasSource(sources, t)
  }

  function PairOf(s: Subscription): (Id, Id) {
    (s.user, s.target)
  }

  /** One subscription for each user and target, found through the index. */
  ghost predicate SubscriptionsOk(targets: map<Id, Target>, subs: map<Id, Subscription>, ids: map<(Id, Id), Id>) {
    && (forall s :: s in subs ==> subs[s].target in targets && PairOf(subs[s]) in ids && ids[PairOf(subs[s])] == s)
    && (forall p :: p in ids ==> ids[p] in subs && PairOf(subs[ids[p]]) == p)
  }

  /** A job with a target works for a source of that target. */
  ghost predicate JobsOk(sources: map<Id, Source>, jobs: JobMap) {
    forall j :: j in jobs ==>
      jobs[j].source in sources && (jobs[j].target.Some? ==> sources[jobs[j].source].target == jobs[j].target)
  }

  predicate IsActive(jobs: JobMap, j: Id, t: Id) {
    j in jobs && jobs[j].target == Some(t) && !IsTerminal(jobs[j].state)
  }

  ghost predicate HasActive(jobs: JobMap, t: Id) {
    exists j :: IsActive(jobs, j, t)
  }

  /** At most one unfinished job for each target. */
  ghost predicate OneActive(jobs: JobMap) {
    forall a, b, t :: IsActive(jobs, a, t) && IsActive(jobs, b, t) ==> a == b
  }

  predicate Keyed(r: Request) {
    r.key.Some? && r.key.value != ""
  }

  ghost predicate RequestOk(targets: map<Id, Target>, sources: map<Id, Source>, subs: map<Id, Subscription>,
                            jobs: JobMap, r: Request) {
    && r.target in targets
    && Backs(sources, r.source, r.target)
    && (r.subscription.Some? ==>
          && r.subscription.value in subs
          && subs[r.subscription.value].target == r.target
          && r.user == Some(subs[r.subscription.value].user))
    && (r.job.Some? ==> r.job.value in jobs && Backs(sources, jobs[r.job.value].source, r.target))
    && (Keyed(r) && r.user.Some? ==> r.subscription.Some?)
  }

  ghost predicate RequestsOk(targets: map<Id, Target>, sources: map<Id, Source>, subs: map<Id, Subscription>, jobs: JobMap,
                             requests: map<Id, Request>) {
    forall r :: r in requests ==> RequestOk(targets, sources, subs, jobs, requests[r])
  }

  predicate Pending(r: Request) {
    r.job.None? && r.status == Waiting
  }

  /** A request that waits without a job waits for a job of its target to end. */
  ghost predicate NoneStranded(requests: map<Id, Request>, jobs: JobMap) {
    forall r :: r in requests && Pending(requests[r]) ==> HasActive(jobs, requests[r].target)
  }

  predicate SameAction(a: Request, b: Request) {
    Keyed(a) && a.key == b.key && a.user == b.user && a.target == b.target
  }

  /** One request for each user, target and idempotency key. */
  ghost predicate ActionsOnce(requests: map<Id, Request>) {
    forall a, b :: a in requests && b in requests && SameAction(requests[a], requests[b]) ==> a == b
  }

  ghost predicate PinsOk(targets: map<Id, Target>, pins: map<Id, Pin>) {
    forall t :: t in pins ==> t in targets
  }

  function Members(videos: map<Id, set<Id>>, t: Id): set<Id> {
    if t in videos then videos[t] else {}
  }

  ghost predicate VideosOk(targets: map<Id, Target>, videos: map<Id, set<Id>>, seen: map<(Id, Id), int>) {
    && (forall t :: t in videos ==> t in targets)
    && (forall t, v :: v in Members(videos, t) <==> (t, v) in seen)
  }

  ghost predicate Core(st: Store) {
    && KeysOk(st.targets, st.keys)
    && AliasesOk(st.targets, st.aliases)
    && SourcesOk(st.targets, st.sources)
    && SubscriptionsOk(st.targets, st.subscriptions, st.subscriptionIds)
    && JobsOk(st.sources, st.jobs)
    && RequestsOk(st.targets, st.sources, st.subscriptions, st.jobs, st.requests)
    && OneActive(st.jobs)
    && NoneStranded(st.requests, st.jobs)
    && ActionsOnce(st.requests)
    && PinsOk(st.targets, st.pins)
    && VideosOk(st.targets, st.targetVideos, st.firstSeen)
  }

  ghost predicate Inv(st: Store) {
    Core(st) && Sourced(st.targets, st.sources)
  }

  // ---- reading -----------------------------------------------------------------------

  ghost function ActiveJob(jobs: JobMap, t: Id): (j: Option<Id>)
    ensures j.Some? ==> IsActive(jobs, j.value, t)
    ensures j.None? ==> !HasActive(jobs, t)
  {
    if j :| IsActive(jobs, j, t) then Some(j) else None
  }

  function CoverageRank(s: Source): seq<int> {
    [if Flag(s.config.includeComments) then 1 else 0, Or(s.config.maxVideos, 0), Or(s.config.maxPagesPerRun, 0),
     Or(s.config.maxCommentPages, 0), s.created]
  }

  /** Sources named by the target's requests; all of its sources when there are none. */
  function Candidates(sources: map<Id, Source>, requests: map<Id, Request>, t: Id): set<Id> {
    var named := set r | r in requests && NamesSource(sources, requests[r], t) :: requests[r].source;
    if named != {} then named else set s | s in sources && Backs(sources, s, t)
  }

  predicate NamesSource(sources: map<Id, Source>, r: Request, t: Id) {
    r.target == t && r.source in sources
  }

  /** The candidate of the highest rank; which one, when ranks tie, is the dictionary's choice. */
  ghost predicate IsBest(sources: map<Id, Source>, candidates: set<Id>, s: Id) {
    && s in candidates && s in sources
    && forall other :: other in candidates && other in sources ==>
         !RanksLess(CoverageRank(sources[s]), CoverageRank(sources[other]))
  }

  ghost predicate IsPrimary(st: Store, t: Id, primary: Option<Id>) {
    match primary
    case None => Candidates(st.sources, st.requests, t) == {}
    case Some(s) => IsBest(st.sources, Candidates(st.sources, st.requests, t), s)
  }

  /** The worker source is a broadest one: no other candidate collects comments where it does not, and none
      that agrees on this has a greater limit of videos. It is one that a request of the target names, if
      there is any. */
  lemma PrimaryIsBroadest(st: Store, t: Id, s: Id, other: Id)
    requires IsPrimary(st, t, Some(s)) && other in Candidates(st.sources, st.requests, t) && other in st.sources
    ensures s in st.sources
    ensures var a, b := st.sources[s].config, st.sources[other].config;
            && (Flag(b.includeComments) ==> Flag(a.includeComments))
            && (Flag(b.includeComments) == Flag(a.includeComments) ==>
                  && Or(b.maxVideos, 0) <= Or(a.maxVideos, 0)
                  && (Or(b.maxVideos, 0) == Or(a.maxVideos, 0) ==>
                        && Or(b.maxPagesPerRun, 0) <= Or(a.maxPagesPerRun, 0)
                        && (Or(b.maxPagesPerRun, 0) == Or(a.maxPagesPerRun, 0) ==>
                              && Or(b.maxCommentPages, 0) <= Or(a.maxCommentPages, 0)
                              && (Or(b.maxCommentPages, 0) == Or(a.maxCommentPages, 0) ==>
                                    st.sources[other].created <= st.sources[s].created))))
  {
    var x, y := CoverageRank(st.sources[s]), CoverageRank(st.sources[other]);
    var k := if x[0] != y[0] then 0 else if x[1] != y[1] then 1 else if x[2] != y[2] then 2 else if x[3] != y[3] then 3 else 4;
    if x[k] != y[k] {
      RanksLessMeans(x, y, k);
    }
  }

  lemma CandidatesAre(st: Store, t: Id, s: Id)
    ensures s in Candidates(st.sources, st.requests, t) <==>
            if exists r :: r in st.requests && st.requests[r].target == t && st.requests[r].source in st.sources then
              exists r :: r in st.requests && st.requests[r].target == t && st.requests[r].source == s && s in st.sources
            else s in st.sources && st.sources[s].target == Some(t)
  {
    var named := set r | r in st.requests && NamesSource(st.sources, st.requests[r], t) :: st.requests[r].source;
    if r :| r in st.requests && st.requests[r].target == t && st.requests[r].source in st.sources {
      assert st.requests[r].source in named;
    }
  }

  lemma PrimaryBacks(st: Store, t: Id, primary: Option<Id>)
    requires RequestsOk(st.targets, st.sources, st.subscriptions, st.jobs, st.requests) && IsPrimary(st, t, primary)
    ensures primary.Some? ==> Backs(st.sources, primary.value, t)
    ensures primary.None? ==> !HasSource(st.sources, t)
  {
    if primary.None? {
      var backing := set s | s in st.sources && Backs(st.sources, s, t);
      assert Candidates(st.sources, st.requests, t) == {} ==> backing == {};
      assert forall s :: Backs(st.sources, s, t) ==> s in backing;
    }
  }

  // ---- changes that touch jobs only ----------------------------------------------------

  /** What the other tables rely on in a job. */
  predicate SameDuty(a: Job, b: Job) {
    a.source == b.source && a.target == b.target && IsTerminal(a.state) == IsTerminal(b.state)
  }

  ghost predicate Reshaped(jobs: JobMap, after: JobMap) {
    jobs.Keys == after.Keys && forall j :: j in jobs ==> SameDuty(jobs[j], after[j])
  }

  lemma ReshapingKeepsActive(jobs: JobMap, after: JobMap)
    requires Reshaped(jobs, after)
    ensures forall t :: HasActive(after, t) <==> HasActive(jobs, t)
    ensures OneActive(jobs) ==> OneActive(after)
  {
    forall j, t ensures IsActive(after, j, t) <==> IsActive(jobs, j, t) {
    }
    forall t ensures HasActive(after, t) <==> HasActive(jobs, t) {
      if HasActive(jobs, t) {
        var j :| IsActive(jobs, j, t);
        assert IsActive(after, j, t);
      }
    }
  }

  /** Requests only rely on the jobs being there, with the sources they had. */
  lemma JobsKeepRequests(targets: map<Id, Target>, sources: map<Id, Source>, subs: map<Id, Subscription>, jobs: JobMap,
                         after: JobMap, requests: map<Id, Request>)
    requires RequestsOk(targets, sources, subs, jobs, requests)
    requires forall j :: j in jobs ==> j in after && after[j].source == jobs[j].source
    ensures RequestsOk(targets, sources, subs, after, requests)
  {
    forall r | r in requests ensures RequestOk(targets, sources, subs, after, requests[r]) {
      assert RequestOk(targets, sources, subs, jobs, requests[r]);
    }
  }

  lemma ReshapingKeepsCore(st: Store, after: JobMap)
    requires Core(st) && Reshaped(st.jobs, after)
    ensures Core(st.(jobs := after))
  {
    ReshapingKeepsActive(st.jobs, after);
    JobsKeepRequests(st.targets, st.sources, st.subscriptions, st.jobs, after, st.requests);
  }

  lemma NewJobKeepsActive(jobs: JobMap, j: Id, job: Job)
    requires j !in jobs && OneActive(jobs)
    requires job.target.Some? ==> !HasActive(jobs, job.target.value)
    ensures OneActive(jobs[j := job])
    ensures forall t :: HasActive(jobs, t) ==> HasActive(jobs[j := job], t)
  {
    var after := jobs[j := job];
    forall a, t | IsActive(after, a, t) && a != j ensures IsActive(jobs, a, t) && HasActive(jobs, t) {
      assert IsActive(jobs, a, t);
    }
    forall t | HasActive(jobs, t) ensures HasActive(after, t) {
      var a :| IsActive(jobs, a, t);
      assert IsActive(after, a, t);
    }
  }

  /** One more job, for a target that has none or for no target at all. */
  lemma NewJobKeepsCore(st: Store, j: Id, job: Job)
    requires Core(st) && j !in st.jobs && job.source in st.sources
    requires job.target.Some? ==> st.sources[job.source].target == job.target && !HasActive(st.jobs, job.target.value)
    ensures Core(st.(jobs := st.jobs[j := job]))
  {
    NewJobKeepsActive(st.jobs, j, job);
    JobsKeepRequests(st.targets, st.sources, st.subscriptions, st.jobs, st.jobs[j := job], st.requests);
  }
}
