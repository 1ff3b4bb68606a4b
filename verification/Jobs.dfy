/** Jobs, their state machine, leases and children, as far as they concern jobs alone:
    apps/api/monitube_api/infrastructure/memory_jobs.py and repositories.py. */
module Jobs {
  import opened Common
  import opened Checkpoints
  import opened CollectionPolicy

  type Id = string

  datatype JobState =
    | QUEUED | RUNNING | WAITING_RETRY | WAITING_QUOTA
    | COMPLETED | COMPLETED_WITH_WARNINGS | FAILED | CANCELLED

  predicate IsTerminal(s: JobState) {
    s in {COMPLETED, COMPLETED_WITH_WARNINGS, FAILED, CANCELLED}
  }

  function AllowedTransitions(s: JobState): set<JobState> {
    match s
    case QUEUED => {RUNNING, WAITING_RETRY, WAITING_QUOTA, CANCELLED}
    case RUNNING => {WAITING_RETRY, WAITING_QUOTA, COMPLETED, COMPLETED_WITH_WARNINGS, FAILED, CANCELLED}
    case WAITING_RETRY => {QUEUED, RUNNING, CANCELLED, FAILED}
    case WAITING_QUOTA => {QUEUED, RUNNING, CANCELLED, FAILED}
    case FAILED => {QUEUED, CANCELLED}
    case CANCELLED => {QUEUED}
    case COMPLETED => {}
    case COMPLETED_WITH_WARNINGS => {}
  }

  /** Staying in a state is always allowed: that is how checkpoints and progress are written. */
  predicate CanMove(from: JobState, to: JobState) {
    from == to || to in AllowedTransitions(from)
  }

  /** The state machine by destination: what can be queued, run, made to wait, finished and cancelled. */
  lemma MovesByDestination(s: JobState)
    ensures CanMove(s, QUEUED) <==> s in {QUEUED, WAITING_RETRY, WAITING_QUOTA, FAILED, CANCELLED}
    ensures CanMove(s, RUNNING) <==> s in {RUNNING, QUEUED, WAITING_RETRY, WAITING_QUOTA}
    ensures CanMove(s, WAITING_RETRY) <==> s in {WAITING_RETRY, QUEUED, RUNNING}
    ensures CanMove(s, WAITING_QUOTA) <==> s in {WAITING_QUOTA, QUEUED, RUNNING}
    ensures CanMove(s, COMPLETED) <==> s in {COMPLETED, RUNNING}
    ensures CanMove(s, COMPLETED_WITH_WARNINGS) <==> s in {COMPLETED_WITH_WARNINGS, RUNNING}
    ensures CanMove(s, FAILED) <==> s in {FAILED, RUNNING, WAITING_RETRY, WAITING_QUOTA}
    ensures CanMove(s, CANCELLED) <==> s !in {COMPLETED, COMPLETED_WITH_WARNINGS}
  {
  }

  /** A state is terminal exactly when no worker can run the job from it, and a success exactly when the
      job can be neither run nor queued again. */
  lemma TerminalMeansOver(s: JobState)
    ensures IsTerminal(s) <==> !CanMove(s, RUNNING)
    ensures Succeeded(s) <==> !CanMove(s, RUNNING) && !CanMove(s, QUEUED)
  {
  }

  datatype Job = Job(
    source: Id,
    state: JobState,
    scope: Scope,
    checkpoint: Checkpoint,
    resumeAt: Option<int>,
    leaseOwner: Option<Id>,
    leaseExpires: Option<int>,
    created: int,
    target: Option<Id>,
    parent: Option<Id>)

  type JobMap = map<Id, Job>

  /** The optional fields of a transition; an outer None leaves the field alone. */
  datatype Changes = Changes(
    checkpoint: Option<Checkpoint>,
    resumeAt: Option<Option<int>>,
    leaseOwner: Option<Option<Id>>,
    leaseExpires: Option<Option<int>>)

  function Moved(job: Job, state: JobState, changes: Changes): Job {
    job.(state := state,
         checkpoint := changes.checkpoint.GetOr(job.checkpoint),
         resumeAt := changes.resumeAt.GetOr(job.resumeAt),
         leaseOwner := changes.leaseOwner.GetOr(job.leaseOwner),
         leaseExpires := changes.leaseExpires.GetOr(job.leaseExpires))
  }

  /** A move writes what it is given and leaves the rest: a checkpoint is where the job resumes from then
      on, and without one it resumes where it did. */
  lemma MoveWritesWhatIsGiven(job: Job, state: JobState, changes: Changes, stage: string, scope: string)
    ensures var after := Moved(job, state, changes);
            && after == Job(job.source, state, job.scope, after.checkpoint, after.resumeAt, after.leaseOwner,
                            after.leaseExpires, job.created, job.target, job.parent)
            && ResumeCursor(after.checkpoint, stage, scope)
               == ResumeCursor(if changes.checkpoint.Some? then changes.checkpoint.value else job.checkpoint, stage, scope)
            && VideoOf(after) == (if changes.checkpoint.Some? then Lookup(changes.checkpoint.value, "youtubeVideoId")
                                  else VideoOf(job))
            && (match changes.resumeAt case Some(time) => after.resumeAt == time case None => after.resumeAt == job.resumeAt)
            && (match changes.leaseOwner case Some(w) => after.leaseOwner == w case None => after.leaseOwner == job.leaseOwner)
            && (match changes.leaseExpires
                case Some(time) => after.leaseExpires == time
                case None => after.leaseExpires == job.leaseExpires)
  {
  }

  // ---- claiming and renewing ---------------------------------------------------------

  predicate Passed(time: Option<int>, now: int) {
    time.Some? && time.value <= now
  }

  /** Queued, or due after a wait, or abandoned while running; and nobody holds it. */
  predicate Claimable(job: Job, now: int) {
    && (|| job.state == QUEUED
        || (job.state in {WAITING_RETRY, WAITING_QUOTA} && Passed(job.resumeAt, now))
        || (job.state == RUNNING && Passed(job.leaseExpires, now)))
    && (job.leaseExpires.None? || job.leaseExpires.value <= now)
  }

  ghost predicate IsOldestClaimable(jobs: JobMap, id: Id, now: int) {
    && id in jobs && Claimable(jobs[id], now)
    && forall other :: other in jobs && Claimable(jobs[other], now) ==> jobs[id].created <= jobs[other].created
  }

  /** A job that some worker can still be given: unfinished, with a time to resume at if it waits, and
      with a deadline if somebody runs it. */
  predicate Startable(job: Job) {
    match job.state
    case QUEUED => true
    case WAITING_RETRY => job.resumeAt.Some?
    case WAITING_QUOTA => job.resumeAt.Some?
    case RUNNING => job.leaseExpires.Some?
    case _ => false
  }

  /** Its waiting time and its lease are over. */
  predicate Free(job: Job, now: int) {
    && (job.leaseExpires.Some? ==> job.leaseExpires.value <= now)
    && (job.state in {WAITING_RETRY, WAITING_QUOTA} && job.resumeAt.Some? ==> job.resumeAt.value <= now)
  }

  lemma ClaimableMeans(job: Job, now: int)
    ensures Claimable(job, now) <==> Startable(job) && Free(job, now)
  {
  }

  /** The latest time a job names: its deadline or the time it resumes at. */
  function FreeFrom(job: Job): int {
    Max(job.leaseExpires.GetOr(0), job.resumeAt.GetOr(0))
  }

  /** No job is forgotten: from that time on, whatever other jobs there are, a claim on a store that holds
      the job finds one, and none that is younger. */
  lemma NoJobIsForgotten(jobs: JobMap, id: Id, now: int)
    requires id in jobs && Startable(jobs[id]) && now >= FreeFrom(jobs[id])
    ensures exists j :: IsOldestClaimable(jobs, j, now)
    ensures forall j :: IsOldestClaimable(jobs, j, now) ==> jobs[j].created <= jobs[id].created
  {
    ClaimableMeans(jobs[id], now);
    var j := Oldest(jobs, now, id);
    assert IsOldestClaimable(jobs, j, now);
  }

  /** A claim takes no finished job, none before its time to resume, and none before its deadline. */
  lemma ClaimTakesOnlyFree(jobs: JobMap, j: Id, now: int)
    requires IsOldestClaimable(jobs, j, now)
    ensures j in jobs && Startable(jobs[j]) && Free(jobs[j], now)
    ensures forall other :: other in jobs && Startable(jobs[other]) && Free(jobs[other], now) ==>
              jobs[j].created <= jobs[other].created
  {
    forall other | other in jobs && Startable(jobs[other]) && Free(jobs[other], now)
      ensures jobs[j].created <= jobs[other].created
    {
      ClaimableMeans(jobs[other], now);
    }
  }

  /** A claim finds a job exactly when there is one that can start and is free. */
  lemma ClaimFindsOldest(jobs: JobMap, now: int)
    ensures (exists j :: j in jobs && Startable(jobs[j]) && Free(jobs[j], now)) <==>
            (exists j :: IsOldestClaimable(jobs, j, now))
  {
    if j :| j in jobs && Startable(jobs[j]) && Free(jobs[j], now) {
      ClaimableMeans(jobs[j], now);
      var oldest := Oldest(jobs, now, j);
      assert IsOldestClaimable(jobs, oldest, now);
    }
    if j :| IsOldestClaimable(jobs, j, now) {
      ClaimTakesOnlyFree(jobs, j, now);
    }
  }

  lemma Oldest(jobs: JobMap, now: int, some: Id) returns (oldest: Id)
    requires some in jobs && Claimable(jobs[some], now)
    ensures IsOldestClaimable(jobs, oldest, now) && jobs[oldest].created <= jobs[some].created
  {
    var ready := set j | j in jobs && Claimable(jobs[j], now);
    assert some in ready;
    oldest := OldestOf(jobs, ready);
    assert IsOldestClaimable(jobs, oldest, now);
  }

  lemma {:induction false} OldestOf(jobs: JobMap, ready: set<Id>) returns (oldest: Id)
    requires ready != {} && ready <= jobs.Keys
    ensures oldest in ready && forall other :: other in ready ==> jobs[oldest].created <= jobs[other].created
  {
    var one :| one in ready;
    oldest := one;
    if ready != {one} {
      var rest := OldestOf(jobs, ready - {one});
      if jobs[rest].created < jobs[one].created {
        oldest := rest;
      }
    }
  }

  function Claimed(job: Job, worker: Id, now: int, seconds: int): Job {
    job.(state := RUNNING, resumeAt := None, leaseOwner := Some(worker), leaseExpires := Some(now + seconds))
  }

  /** A claimed job is its worker's, and nobody else's before the deadline. */
  lemma ClaimedIsHeld(job: Job, worker: Id, now: int, seconds: int, other: Id, time: int)
    ensures var after := Claimed(job, worker, now, seconds);
            && after.state == RUNNING && after.resumeAt.None?
            && (Renewable(after, other) <==> other == worker)
            && (Claimable(after, time) <==> time - now >= seconds)
            && after == job.(state := RUNNING, resumeAt := None, leaseOwner := after.leaseOwner,
                              leaseExpires := after.leaseExpires)
  {
  }

  /** A renewal moves the deadline, and nothing else. */
  lemma RenewedIsHeld(job: Job, worker: Id, now: int, seconds: int, time: int)
    requires Renewable(job, worker)
    ensures var after := Renewed(job, now, seconds);
            && Renewable(after, worker) && after == job.(leaseExpires := after.leaseExpires)
            && (Claimable(after, time) <==> time - now >= seconds)
  {
  }

  predicate Renewable(job: Job, worker: Id) {
    job.state == RUNNING && job.leaseOwner == Some(worker)
  }

  function Renewed(job: Job, now: int, seconds: int): Job {
    job.(leaseExpires := Some(now + seconds))
  }

  // ---- children ----------------------------------------------------------------------

  predicate IsChild(jobs: JobMap, id: Id, parent: Id) {
    id in jobs && jobs[id].parent == Some(parent)
  }

  /** The video a child is for. */
  function VideoOf(job: Job): Value {
    Lookup(job.checkpoint, "youtubeVideoId")
  }

  ghost predicate HasChildFor(jobs: JobMap, parent: Id, video: string) {
    exists c :: IsChild(jobs, c, parent) && VideoOf(jobs[c]) == Text(video)
  }

  function ChildJob(parentId: Id, parent: Job, video: string, now: int): Job {
    Job(parent.source, QUEUED, Scope(parent.scope.includeComments, Some(1), parent.scope.maxCommentPages),
        map["jobKind" := Text("video"), "youtubeVideoId" := Text(video)],
        None, None, None, now, None, Some(parentId))
  }

  /** A child is a new job for one video: queued, free to be claimed, for its parent's source, with as much
      of the comments as its parent has to collect. */
  lemma ChildIsForItsVideo(parentId: Id, parent: Job, video: string, now: int, kind: SourceType, c: Config, w: Work)
    ensures var child := ChildJob(parentId, parent, video, now);
            && VideoOf(child) == Text(video) && child.parent == Some(parentId) && child.source == parent.source
            && child.target.None? && child.created == now && child.scope.maxVideos == Some(1)
            && child.state == QUEUED && child.leaseExpires.None? && child.leaseOwner.None? && child.resumeAt.None?
            && Lookup(child.checkpoint, "jobKind") == Text("video")
            && (w.CommentPage? ==> (DoneBy(child.scope, kind, c, w) <==> DoneBy(parent.scope, kind, c, w)))
            && (forall stage, scope :: ResumeCursor(child.checkpoint, stage, scope) == (None, 0))
  {
    var a, b := "jobKind", "youtubeVideoId";
    assert a[0] == 'j' && b[0] == 'y';
  }

  /** One job for each video that has none yet; ids[i] is the id a job for videos[i] would get. */
  ghost function EnqueueVideoJobs(jobs: JobMap, parentId: Id, parent: Job, videos: seq<string>, ids: seq<Id>, now: int): JobMap
    requires |ids| == |videos|
  {
    if videos == [] then jobs
    else
      var n := |videos| - 1;
      var before := EnqueueVideoJobs(jobs, parentId, parent, videos[..n], ids[..n], now);
      if videos[n] == "" || HasChildFor(before, parentId, videos[n]) then before
      else before[ids[n] := ChildJob(parentId, parent, videos[n], now)]
  }

  ghost predicate UnusedIds(jobs: JobMap, ids: seq<Id>) {
    NoDuplicates(ids) && forall i :: 0 <= i < |ids| ==> ids[i] !in jobs
  }

  lemma {:induction false} IdStaysUnused(jobs: JobMap, parentId: Id, parent: Job, videos: seq<string>, ids: seq<Id>,
                                         now: int, id: Id)
    requires |ids| == |videos| && id !in jobs && id !in ids
    ensures id !in EnqueueVideoJobs(jobs, parentId, parent, videos, ids, now)
  {
    if videos != [] {
      IdStaysUnused(jobs, parentId, parent, videos[..|videos| - 1], ids[..|videos| - 1], now, id);
    }
  }

  lemma LastIdIsUnused(jobs: JobMap, parentId: Id, parent: Job, videos: seq<string>, ids: seq<Id>, now: int)
    requires |ids| == |videos| > 0 && UnusedIds(jobs, ids)
    ensures ids[|ids| - 1] !in EnqueueVideoJobs(jobs, parentId, parent, videos[..|ids| - 1], ids[..|ids| - 1], now)
  {
    IdStaysUnused(jobs, parentId, parent, videos[..|ids| - 1], ids[..|ids| - 1], now, ids[|ids| - 1]);
  }

  /** Enqueuing only adds queued children of this parent; every job that was there stays as it was. */
  ghost predicate OnlyAdds(jobs: JobMap, after: JobMap, parentId: Id, parent: Job, videos: seq<string>, ids: seq<Id>,
                           now: int) {
    && (forall j :: j in jobs ==> j in after && after[j] == jobs[j])
    && (forall j :: j in after && j !in jobs ==>
          exists i :: 0 <= i < |ids| && |ids| == |videos| && ids[i] == j
            && after[j] == ChildJob(parentId, parent, videos[i], now))
  }

  lemma {:induction false} EnqueueOnlyAdds(jobs: JobMap, parentId: Id, parent: Job, videos: seq<string>, ids: seq<Id>, now: int)
    requires |ids| == |videos| && UnusedIds(jobs, ids)
    ensures OnlyAdds(jobs, EnqueueVideoJobs(jobs, parentId, parent, videos, ids, now), parentId, parent, videos, ids, now)
  {
    if videos != [] {
      var n := |videos| - 1;
      EnqueueOnlyAdds(jobs, parentId, parent, videos[..n], ids[..n], now);
      var after := EnqueueVideoJobs(jobs, parentId, parent, videos, ids, now);
      forall j | j in after && j !in jobs
        ensures exists i :: 0 <= i < |ids| && ids[i] == j && after[j] == ChildJob(parentId, parent, videos[i], now)
      {
        if j == ids[n] {
          LastIdIsUnused(jobs, parentId, parent, videos, ids, now);
          assert after[j] == ChildJob(parentId, parent, videos[n], now);
        } else {
          var i :| 0 <= i < n && ids[..n][i] == j && after[j] == ChildJob(parentId, parent, videos[..n][i], now);
          assert ids[i] == j;
        }
      }
    }
  }

  /** No parent has two children for one video. */
  ghost predicate OneChildPerVideo(jobs: JobMap) {
    forall a, b :: a in jobs && b in jobs && SameWork(jobs[a], jobs[b]) ==> a == b
  }

  predicate SameWork(a: Job, b: Job) {
    a.parent.Some? && a.parent == b.parent && VideoOf(a) == VideoOf(b)
  }

  /** Afterwards every requested video has exactly one child, however often discovery is replayed. */
  lemma {:induction false} EnqueueIsIdempotent(jobs: JobMap, parentId: Id, parent: Job, videos: seq<string>,
                                               ids: seq<Id>, now: int)
    requires |ids| == |videos| && UnusedIds(jobs, ids) && OneChildPerVideo(jobs)
    ensures var after := EnqueueVideoJobs(jobs, parentId, parent, videos, ids, now);
            && OneChildPerVideo(after)
            && forall i :: 0 <= i < |videos| && videos[i] != "" ==> HasChildFor(after, parentId, videos[i])
  {
    if videos != [] {
      var n := |videos| - 1;
      EnqueueIsIdempotent(jobs, parentId, parent, videos[..n], ids[..n], now);
      EnqueueOnlyAdds(jobs, parentId, parent, videos[..n], ids[..n], now);
      var before := EnqueueVideoJobs(jobs, parentId, parent, videos[..n], ids[..n], now);
      var after := EnqueueVideoJobs(jobs, parentId, parent, videos, ids, now);
      LastIdIsUnused(jobs, parentId, parent, videos, ids, now);
      AddChildKeeps(before, after, ids[n], parentId, parent, videos[n], now);
      forall i | 0 <= i < |videos| && videos[i] != "" ensures HasChildFor(after, parentId, videos[i]) {
        if i < n {
          assert videos[..n][i] == videos[i];
        }
      }
    }
  }

  lemma AddChildKeeps(before: JobMap, after: JobMap, id: Id, parentId: Id, parent: Job, video: string, now: int)
    requires OneChildPerVideo(before) && id !in before
    requires after == if video == "" || HasChildFor(before, parentId, video) then before
                      else before[id := ChildJob(parentId, parent, video, now)]
    ensures OneChildPerVideo(after)
    ensures video != "" ==> HasChildFor(after, parentId, video)
    ensures forall v :: HasChildFor(before, parentId, v) ==> HasChildFor(after, parentId, v)
  {
    if after != before {
      assert IsChild(after, id, parentId) && VideoOf(after[id]) == Text(video);
      forall v | HasChildFor(before, parentId, v) ensures HasChildFor(after, parentId, v) {
        var c :| IsChild(before, c, parentId) && VideoOf(before[c]) == Text(v);
        assert IsChild(after, c, parentId);
      }
      forall a, b | a in after && b in after && SameWork(after[a], after[b]) ensures a == b {
        if a == id && b != id {
          assert IsChild(before, b, parentId);
        } else if b == id && a != id {
          assert IsChild(before, a, parentId);
        }
      }
    }
  }

  ghost function Children(jobs: JobMap, parent: Id): set<Id> {
    set c | c in jobs && IsChild(jobs, c, parent)
  }

  datatype Summary = Summary(total: nat, terminal: nat, failed: nat)

  ghost function ChildJobSummary(jobs: JobMap, parent: Id): Summary {
    Summary(
      |Children(jobs, parent)|,
      |set c | c in Children(jobs, parent) && IsTerminal(jobs[c].state)|,
      |set c | c in Children(jobs, parent) && jobs[c].state in {FAILED, CANCELLED}|)
  }

  predicate Succeeded(s: JobState) {
    s in {COMPLETED, COMPLETED_WITH_WARNINGS}
  }

  ghost predicate AllSucceeded(jobs: JobMap, parent: Id) {
    forall c :: IsChild(jobs, c, parent) ==> Succeeded(jobs[c].state)
  }

  /** The three counts decide success: as many terminal as there are, and none failed. */
  lemma SummaryDecidesSuccess(jobs: JobMap, parent: Id)
    ensures var s := ChildJobSummary(jobs, parent);
            (s.terminal >= s.total && s.failed == 0) <==> AllSucceeded(jobs, parent)
  {
    var all := Children(jobs, parent);
    var terminal := set c | c in all && IsTerminal(jobs[c].state);
    var failed := set c | c in all && jobs[c].state in {FAILED, CANCELLED};
    if |terminal| >= |all| && failed == {} {
      FullSubset(terminal, all);
      forall c | IsChild(jobs, c, parent) ensures Succeeded(jobs[c].state) {
        assert c in terminal && c !in failed;
      }
    }
    if AllSucceeded(jobs, parent) {
      assert terminal == all;
      assert failed == {};
    }
  }
}
