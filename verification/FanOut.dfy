/** A discovery job and the video jobs it fans out into: collect and _finalize_fanout_job in
    apps/worker/monitube_worker/collector.py, under one holder of the discovery job at a time. */
module FanOut {
  import opened Common
  import opened Jobs
  import K = Checkpoints

  /** Where the worker that holds a discovery job has got to; `discovered` and `targeted` are read
      from the job once, when it is claimed. */
  datatype Progress =
    | Idle
    | Started(discovered: bool, targeted: bool)
    | Enqueued
    | Marked
    | Counted(summary: Summary)

  datatype World = World(jobs: JobMap, progress: map<Id, Progress>, direct: set<Id>)

  datatype Event =
    | NewJob(id: Id, job: Job)
    | Start(p: Id)
    | Discover(p: Id, videos: seq<string>, ids: seq<Id>, now: int)
    | MarkDiscovered(p: Id, videoCount: nat)
    | Count(p: Id)
    | Complete(p: Id, warnings: bool)
    | Leave(p: Id, state: JobState, changes: Changes)
    | Crash(p: Id)
    | Move(j: Id, state: JobState)
    | Rewrite(j: Id, rewrite: K.Rewrite)
    | Detach(p: Id)

  function At(w: World, p: Id): Progress {
    if p in w.progress then w.progress[p] else Idle
  }

  predicate IsParent(w: World, p: Id) {
    p in w.jobs && w.jobs[p].parent.None?
  }

  predicate Discovered(job: Job) {
    K.Lookup(job.checkpoint, "fanoutDiscovered") == K.Flag(true)
  }

  /** Which steps the code can take. A job reaches a successful state only through its runner. */
  ghost predicate Enabled(w: World, e: Event) {
    match e
    case NewJob(id, job) =>
      id !in w.jobs && At(w, id).Idle? && job.parent.None? && job.state == QUEUED && !Discovered(job)
      && Children(w.jobs, id) == {}
    case Start(p) => IsParent(w, p) && At(w, p).Idle? && w.jobs[p].state == RUNNING
    case Discover(p, videos, ids, _) =>
      IsParent(w, p) && At(w, p) == Started(false, true) && p !in w.direct && |ids| == |videos| && UnusedIds(w.jobs, ids)
      && forall i, c :: 0 <= i < |ids| && c in w.jobs ==> w.jobs[c].parent != Some(ids[i])
    case MarkDiscovered(p, _) => IsParent(w, p) && At(w, p).Enqueued?
    case Count(p) => IsParent(w, p) && At(w, p).Started? && At(w, p).discovered
    case Complete(p, _) =>
      && IsParent(w, p) && CanMove(w.jobs[p].state, COMPLETED) && w.jobs[p].state == RUNNING
      && (match At(w, p)
          case Counted(s) => s.terminal >= s.total && s.failed == 0
          case Started(discovered, targeted) => p in w.direct || (!discovered && !targeted)
          case _ => false)
    case Leave(p, state, changes) =>
      IsParent(w, p) && !At(w, p).Idle? && CanMove(w.jobs[p].state, state)
      && state in {WAITING_RETRY, WAITING_QUOTA, FAILED} && changes.checkpoint.None?
    case Crash(p) => IsParent(w, p)
    case Move(j, state) =>
      j in w.jobs && CanMove(w.jobs[j].state, state) && (w.jobs[j].parent.None? ==> !Succeeded(state))
    case Rewrite(j, _) => j in w.jobs
    case Detach(p) => IsParent(w, p)
  }

  ghost function Next(w: World, e: Event): World
    requires Enabled(w, e)
  {
    match e
    case NewJob(id, job) => w.(jobs := w.jobs[id := job])
    case Start(p) => w.(progress := w.progress[p := Started(Discovered(w.jobs[p]), w.jobs[p].target.Some?)])
    case Discover(p, videos, ids, now) =>
      w.(jobs := EnqueueVideoJobs(w.jobs, p, w.jobs[p], videos, ids, now), progress := w.progress[p := Enqueued])
    case MarkDiscovered(p, videoCount) =>
      w.(jobs := w.jobs[p := Rewritten(w.jobs[p], K.FanoutFound(videoCount))], progress := w.progress[p := Marked])
    case Count(p) => w.(progress := w.progress[p := Counted(ChildJobSummary(w.jobs, p))])
    case Complete(p, warnings) =>
      w.(jobs := w.jobs[p := w.jobs[p].(state := if warnings then COMPLETED_WITH_WARNINGS else COMPLETED)],
         progress := w.progress[p := Idle])
    case Leave(p, state, changes) =>
      w.(jobs := w.jobs[p := Moved(w.jobs[p], state, changes)], progress := w.progress[p := Idle])
    case Crash(p) => w.(progress := w.progress[p := Idle])
    case Move(j, state) => w.(jobs := w.jobs[j := w.jobs[j].(state := state)])
    case Rewrite(j, rewrite) => w.(jobs := w.jobs[j := Rewritten(w.jobs[j], rewrite)])
    case Detach(p) => w.(jobs := w.jobs[p := w.jobs[p].(target := None)])
  }

  function Rewritten(job: Job, rewrite: K.Rewrite): Job {
    job.(checkpoint := K.Apply(job.checkpoint, rewrite))
  }

  // ---- what every run keeps ----------------------------------------------------------

  ghost predicate Finished(w: World, p: Id) {
    p in w.jobs && Succeeded(w.jobs[p].state)
  }

  /** A discovery job that succeeded has only successful children. */
  ghost predicate Safe(w: World) {
    forall p :: Finished(w, p) ==> AllSucceeded(w.jobs, p)
  }

  ghost predicate Childless(jobs: JobMap, p: Id) {
    forall c :: !IsChild(jobs, c, p)
  }

  /** Children exist, the job never recorded that it discovered them, it lost its target, and
      nobody is working on it: the next run would take it for a job without children. */
  ghost predicate InGap(w: World, p: Id) {
    IsParent(w, p) && At(w, p).Idle? && !Childless(w.jobs, p) && !Discovered(w.jobs[p]) && w.jobs[p].target.None?
  }

  ghost predicate NoGap(w: World) {
    forall p :: !InGap(w, p)
  }

  /** A worker is busy only with an unfinished parent, and what it counted stays true. */
  ghost predicate HolderOk(w: World, p: Id) {
    At(w, p).Idle? || (IsParent(w, p) && !Succeeded(w.jobs[p].state) && CountOk(w.jobs, p, At(w, p)))
  }

  ghost predicate CountOk(jobs: JobMap, p: Id, at: Progress) {
    match at
    case Counted(s) => s.terminal >= s.total && s.failed == 0 ==> AllSucceeded(jobs, p)
    case Started(discovered, targeted) => !discovered && !targeted ==> Childless(jobs, p)
    case _ => true
  }

  ghost predicate FamilyOk(w: World) {
    forall c :: c in w.jobs && w.jobs[c].parent.Some? ==>
      IsParent(w, w.jobs[c].parent.value) && w.jobs[c].parent.value !in w.direct
  }

  ghost predicate Inv(w: World) {
    && OneChildPerVideo(w.jobs)
    && Safe(w)
    && FamilyOk(w)
    && forall p :: HolderOk(w, p)
  }

  /** Same parent, same video, and success is final. */
  predicate SameRole(before: Job, after: Job) {
    && after.parent == before.parent
    && VideoOf(after) == VideoOf(before)
    && (Succeeded(before.state) ==> Succeeded(after.state))
  }

  ghost predicate SameFamily(jobs: JobMap, after: JobMap) {
    && jobs.Keys == after.Keys
    && forall j :: j in jobs ==> SameRole(jobs[j], after[j])
  }

  lemma SameFamilyKeeps(jobs: JobMap, after: JobMap)
    requires SameFamily(jobs, after)
    ensures OneChildPerVideo(jobs) ==> OneChildPerVideo(after)
    ensures forall p :: AllSucceeded(jobs, p) ==> AllSucceeded(after, p)
    ensures forall p :: Childless(after, p) <==> Childless(jobs, p)
  {
    forall c, p ensures IsChild(after, c, p) <==> IsChild(jobs, c, p) {
    }
    if OneChildPerVideo(jobs) {
      forall a, b | a in after && b in after && SameWork(after[a], after[b]) ensures a == b {
        assert SameWork(jobs[a], jobs[b]);
      }
    }
  }

  lemma VideoSurvives(job: Job, rewrite: K.Rewrite)
    ensures VideoOf(Rewritten(job, rewrite)) == VideoOf(job)
  {
    K.RewriteKeeps(job.checkpoint, rewrite);
    var keys := {"jobKind", "youtubeVideoId"};
    assert "youtubeVideoId" in keys;
  }

  lemma OneJobChanged(jobs: JobMap, j: Id, job: Job)
    requires j in jobs && SameRole(jobs[j], job)
    ensures SameFamily(jobs, jobs[j := job])
  {
  }

  /** Every step but discovery and creation leaves the family as it is. */
  lemma StepKeepsFamily(w: World, e: Event)
    requires Enabled(w, e) && !e.Discover? && !e.NewJob?
    ensures SameFamily(w.jobs, Next(w, e).jobs)
  {
    match e
    case MarkDiscovered(p, n) =>
      VideoSurvives(w.jobs[p], K.FanoutFound(n));
      OneJobChanged(w.jobs, p, Rewritten(w.jobs[p], K.FanoutFound(n)));
    case Rewrite(j, r) =>
      VideoSurvives(w.jobs[j], r);
      OneJobChanged(w.jobs, j, Rewritten(w.jobs[j], r));
    case Complete(p, warnings) => OneJobChanged(w.jobs, p, Next(w, e).jobs[p]);
    case Leave(p, state, changes) => OneJobChanged(w.jobs, p, Moved(w.jobs[p], state, changes));
    case Move(j, state) => OneJobChanged(w.jobs, j, w.jobs[j].(state := state));
    case Detach(p) => OneJobChanged(w.jobs, p, w.jobs[p].(target := None));
    case Start(_) =>
    case Count(_) =>
    case Crash(_) =>
  }

  lemma StepKeepsInv(w: World, e: Event)
    requires Inv(w) && NoGap(w) && Enabled(w, e)
    ensures Inv(Next(w, e))
  {
    if e.Discover? {
      DiscoverKeepsInv(w, e);
    } else if e.NewJob? {
      NewJobKeepsInv(w, e);
    } else {
      StepKeepsFamily(w, e);
      SameFamilyKeeps(w.jobs, Next(w, e).jobs);
      forall p ensures HolderOk(Next(w, e), p) {
        HolderKept(w, e, p);
      }
      forall p ensures Finished(Next(w, e), p) ==> AllSucceeded(Next(w, e).jobs, p) {
        SafetyKept(w, e, p);
      }
    }
  }

  lemma HolderKept(w: World, e: Event, p: Id)
    requires HolderOk(w, p) && !InGap(w, p) && Enabled(w, e) && !e.Discover? && !e.NewJob?
    ensures HolderOk(Next(w, e), p)
  {
    StepKeepsFamily(w, e);
    SameFamilyKeeps(w.jobs, Next(w, e).jobs);
    if e.Count? && e.p == p {
      SummaryDecidesSuccess(w.jobs, p);
    }
  }

  /** Success of a discovery job is recorded only when all of its children succeeded, and nothing
      that happens later takes it back. */
  lemma SafetyKept(w: World, e: Event, p: Id)
    requires FamilyOk(w) && HolderOk(w, p) && (Finished(w, p) ==> AllSucceeded(w.jobs, p))
    requires Enabled(w, e) && !e.Discover? && !e.NewJob?
    ensures Finished(Next(w, e), p) ==> AllSucceeded(Next(w, e).jobs, p)
  {
    StepKeepsFamily(w, e);
    SameFamilyKeeps(w.jobs, Next(w, e).jobs);
    if Finished(Next(w, e), p) && !Finished(w, p) {
      if !e.Complete? || p in w.direct {
        // A child, or a direct video job: it has no children.
        assert Childless(w.jobs, p);
      }
    }
  }

  lemma NewJobKeepsInv(w: World, e: Event)
    requires Inv(w) && Enabled(w, e) && e.NewJob?
    ensures Inv(Next(w, e))
  {
    var after := Next(w, e);
    forall c, p ensures IsChild(after.jobs, c, p) <==> IsChild(w.jobs, c, p) {
    }
    forall p ensures HolderOk(after, p) {
      assert HolderOk(w, p);
      assert Childless(w.jobs, p) ==> Childless(after.jobs, p);
    }
    forall p | Finished(after, p) ensures AllSucceeded(after.jobs, p) {
      assert Finished(w, p);
    }
  }

  lemma DiscoverKeepsInv(w: World, e: Event)
    requires Inv(w) && Enabled(w, e) && e.Discover?
    ensures Inv(Next(w, e))
  {
    var after := Next(w, e);
    EnqueueIsIdempotent(w.jobs, e.p, w.jobs[e.p], e.videos, e.ids, e.now);
    EnqueueOnlyAdds(w.jobs, e.p, w.jobs[e.p], e.videos, e.ids, e.now);
    assert HolderOk(w, e.p);
    forall p ensures HolderOk(after, p) {
      assert HolderOk(w, p);
      OthersChildren(w, e, p);
    }
    forall p | Finished(after, p) ensures AllSucceeded(after.jobs, p) {
      assert Finished(w, p);
      OthersChildren(w, e, p);
    }
  }

  /** Discovery gives children to one job only. */
  lemma OthersChildren(w: World, e: Event, p: Id)
    requires Enabled(w, e) && e.Discover?
    requires OnlyAdds(w.jobs, Next(w, e).jobs, e.p, w.jobs[e.p], e.videos, e.ids, e.now)
    ensures p != e.p ==> forall c :: IsChild(Next(w, e).jobs, c, p) <==> IsChild(w.jobs, c, p)
    ensures p in w.jobs ==> p in Next(w, e).jobs && Next(w, e).jobs[p] == w.jobs[p]
    ensures p != e.p && AllSucceeded(w.jobs, p) ==> AllSucceeded(Next(w, e).jobs, p)
    ensures p != e.p && Childless(w.jobs, p) ==> Childless(Next(w, e).jobs, p)
  {
    var after := Next(w, e);
    if p != e.p {
      forall c ensures IsChild(after.jobs, c, p) <==> IsChild(w.jobs, c, p) {
      }
    }
  }

  // ---- runs --------------------------------------------------------------------------

  ghost predicate Start0(w: World) {
    w.jobs == map[] && w.progress == map[]
  }

  ghost predicate IsRun(w: World, events: seq<Event>)
    decreases |events|
  {
    events == [] || (Enabled(w, events[0]) && IsRun(Next(w, events[0]), events[1..]))
  }

  ghost function Exec(w: World, events: seq<Event>): World
    requires IsRun(w, events)
    decreases |events|
  {
    if events == [] then w else Exec(Next(w, events[0]), events[1..])
  }

  ghost predicate NeverInGap(w: World, events: seq<Event>)
    requires IsRun(w, events)
    decreases |events|
  {
    NoGap(w) && (events != [] ==> NeverInGap(Next(w, events[0]), events[1..]))
  }

  /** Fan-out is safe in every run that stays out of the gap: a discovery job that succeeded has
      only successful children, now and for good, and no video has two children of one job. */
  lemma {:induction false} FanOutIsSafe(w: World, events: seq<Event>)
    requires Inv(w) && IsRun(w, events) && NeverInGap(w, events)
    ensures Safe(Exec(w, events)) && OneChildPerVideo(Exec(w, events).jobs)
    decreases |events|
  {
    if events != [] {
      StepKeepsInv(w, events[0]);
      FanOutIsSafe(Next(w, events[0]), events[1..]);
    }
  }

  lemma StartsSafe(w: World)
    requires Start0(w)
    ensures Inv(w) && NoGap(w)
  {
  }

  /** From an empty store on. */
  lemma FanOutIsSafeFromStart(w: World, events: seq<Event>)
    requires Start0(w) && IsRun(w, events) && NeverInGap(w, events)
    ensures Safe(Exec(w, events)) && OneChildPerVideo(Exec(w, events).jobs)
  {
    StartsSafe(w);
    FanOutIsSafe(w, events);
  }

  // ---- without merges there is no gap --------------------------------------------------

  /** A job that has children, or that was picked up as the job of a target, has a target. */
  ghost predicate Attached(w: World) {
    && (forall p :: At(w, p).Idle? || p in w.jobs)
    && (forall c, p :: IsChild(w.jobs, c, p) && p in w.jobs ==> w.jobs[p].target.Some?)
    && (forall p :: p in w.jobs && At(w, p).Started? && At(w, p).targeted ==> w.jobs[p].target.Some?)
  }

  lemma TargetStays(w: World, e: Event, p: Id)
    requires Enabled(w, e) && !e.Detach? && p in w.jobs
    ensures p in Next(w, e).jobs && Next(w, e).jobs[p].target == w.jobs[p].target
    ensures At(Next(w, e), p).Started? && At(Next(w, e), p).targeted ==>
              (At(w, p).Started? && At(w, p).targeted) || w.jobs[p].target.Some?
  {
    if e.Discover? {
      EnqueueOnlyAdds(w.jobs, e.p, w.jobs[e.p], e.videos, e.ids, e.now);
    }
  }

  /** A job gets children only while it is known to have a target. */
  lemma NewChildren(w: World, e: Event, c: Id, p: Id)
    requires Enabled(w, e) && !e.Detach? && p in Next(w, e).jobs && IsChild(Next(w, e).jobs, c, p)
    ensures p in w.jobs && (IsChild(w.jobs, c, p) || (At(w, p).Started? && At(w, p).targeted))
  {
    if e.Discover? {
      EnqueueOnlyAdds(w.jobs, e.p, w.jobs[e.p], e.videos, e.ids, e.now);
      OthersChildren(w, e, p);
    } else if !e.NewJob? {
      StepKeepsFamily(w, e);
    } else {
      assert IsChild(w.jobs, c, p);
      assert c in Children(w.jobs, p);
    }
  }

  lemma StepKeepsAttached(w: World, e: Event)
    requires Attached(w) && Enabled(w, e) && !e.Detach?
    ensures Attached(Next(w, e))
  {
    var after := Next(w, e);
    forall p ensures At(after, p).Idle? || p in w.jobs {
    }
    forall p | p in w.jobs ensures p in after.jobs {
      TargetStays(w, e, p);
    }
    forall c, p | IsChild(after.jobs, c, p) && p in after.jobs ensures after.jobs[p].target.Some? {
      NewChildren(w, e, c, p);
      TargetStays(w, e, p);
    }
    forall p | p in after.jobs && At(after, p).Started? && At(after, p).targeted ensures after.jobs[p].target.Some? {
      TargetStays(w, e, p);
    }
  }

  lemma {:induction false} UnmergedRunHasNoGap(w: World, events: seq<Event>)
    requires Attached(w) && IsRun(w, events) && forall e :: e in events ==> !e.Detach?
    ensures NeverInGap(w, events)
    decreases |events|
  {
    if events != [] {
      StepKeepsAttached(w, events[0]);
      UnmergedRunHasNoGap(Next(w, events[0]), events[1..]);
    }
  }

  /** As long as no merge takes a target from its jobs, fan-out is safe, whatever crashes. */
  lemma UnmergedFanOutIsSafe(w: World, events: seq<Event>)
    requires Start0(w) && IsRun(w, events) && forall e :: e in events ==> !e.Detach?
    ensures Safe(Exec(w, events)) && OneChildPerVideo(Exec(w, events).jobs)
  {
    UnmergedRunHasNoGap(w, events);
    FanOutIsSafeFromStart(w, events);
  }

  // ---- what fan-out gets done ----------------------------------------------------------

  /** The progress of a discovery: the job is picked up, its videos become children, the worker records that
      it found them and lets go of the job, to be woken when they may be done. */
  lemma DiscoveryGetsDone(w: World, p: Id, videos: seq<string>, ids: seq<Id>, now: int, n: nat, state: JobState,
                          changes: Changes)
    requires Enabled(w, Start(p)) && !Discovered(w.jobs[p]) && w.jobs[p].target.Some? && p !in w.direct
    requires |ids| == |videos| && UnusedIds(w.jobs, ids) && OneChildPerVideo(w.jobs)
    requires forall i, c :: 0 <= i < |ids| && c in w.jobs ==> w.jobs[c].parent != Some(ids[i])
    requires state in {WAITING_RETRY, WAITING_QUOTA, FAILED} && changes.checkpoint.None?
    ensures var events := [Start(p), Discover(p, videos, ids, now), MarkDiscovered(p, n), Leave(p, state, changes)];
            && IsRun(w, events)
            && var after := Exec(w, events);
               && IsParent(after, p) && At(after, p).Idle? && after.jobs[p].state == state && Discovered(after.jobs[p])
               && forall i :: 0 <= i < |videos| && videos[i] != "" ==> HasChildFor(after.jobs, p, videos[i])
  {
    var e0, e1, e2, e3 := Start(p), Discover(p, videos, ids, now), MarkDiscovered(p, n), Leave(p, state, changes);
    var w1 := Next(w, e0);
    var w2 := Next(w1, e1);
    EnqueueOnlyAdds(w.jobs, p, w.jobs[p], videos, ids, now);
    EnqueueIsIdempotent(w.jobs, p, w.jobs[p], videos, ids, now);
    MarkedAndLeft(w2, p, videos, n, state, changes);
    RunCons(w1, e1, [e2, e3]);
    RunCons(w, e0, [e1, e2, e3]);
    assert [e0] + [e1, e2, e3] == [e0, e1, e2, e3] && [e1] + [e2, e3] == [e1, e2, e3];
  }

  lemma MarkedAndLeft(w: World, p: Id, videos: seq<string>, n: nat, state: JobState, changes: Changes)
    requires IsParent(w, p) && At(w, p).Enqueued? && w.jobs[p].state == RUNNING
    requires state in {WAITING_RETRY, WAITING_QUOTA, FAILED} && changes.checkpoint.None?
    requires forall i :: 0 <= i < |videos| && videos[i] != "" ==> HasChildFor(w.jobs, p, videos[i])
    ensures var events := [MarkDiscovered(p, n), Leave(p, state, changes)];
            && IsRun(w, events)
            && var after := Exec(w, events);
               && IsParent(after, p) && At(after, p).Idle? && after.jobs[p].state == state && Discovered(after.jobs[p])
               && forall i :: 0 <= i < |videos| && videos[i] != "" ==> HasChildFor(after.jobs, p, videos[i])
  {
    var e, f := MarkDiscovered(p, n), Leave(p, state, changes);
    var marked := Next(w, e);
    var left := Next(marked, f);
    K.RewriteIsReadBack(w.jobs[p].checkpoint, 0, n);
    RunCons(marked, f, []);
    RunCons(w, e, [f]);
    assert [e] + [f] == [e, f] && [f] + [] == [f];
    StepKeepsFamily(w, e);
    StepKeepsFamily(marked, f);
    forall v: string | HasChildFor(w.jobs, p, v) ensures HasChildFor(left.jobs, p, v) {
      var c :| IsChild(w.jobs, c, p) && VideoOf(w.jobs[c]) == K.Text(v);
      assert IsChild(left.jobs, c, p) && VideoOf(left.jobs[c]) == K.Text(v);
    }
  }

  lemma CountedCompletes(w: World, p: Id, s: Summary, warnings: bool)
    requires IsParent(w, p) && At(w, p) == Counted(s) && w.jobs[p].state == RUNNING
    ensures IsRun(w, [Complete(p, warnings)]) <==> s.terminal >= s.total && s.failed == 0
    ensures IsRun(w, [Complete(p, warnings)]) ==> EndsIn(Exec(w, [Complete(p, warnings)]), p, warnings)
  {
    var e := Complete(p, warnings);
    assert [e][1..] == [];
    if Enabled(w, e) {
      RunCons(w, e, []);
      assert [e] + [] == [e];
    }
  }

  predicate EndsIn(w: World, p: Id, warnings: bool) {
    p in w.jobs && w.jobs[p].state == if warnings then COMPLETED_WITH_WARNINGS else COMPLETED
  }

  lemma PickedUpCompletes(w: World, p: Id, warnings: bool)
    requires Enabled(w, Start(p)) && Discovered(w.jobs[p])
    ensures var events := [Start(p), Count(p), Complete(p, warnings)];
            && (IsRun(w, events) <==> AllSucceeded(w.jobs, p))
            && (IsRun(w, events) ==> EndsIn(Exec(w, events), p, warnings))
  {
    var e0, e1, e2 := Start(p), Count(p), Complete(p, warnings);
    var w1 := Next(w, e0);
    var w2 := Next(w1, e1);
    SummaryDecidesSuccess(w.jobs, p);
    CountedCompletes(w2, p, ChildJobSummary(w.jobs, p), warnings);
    assert [e0, e1, e2][1..] == [e1, e2] && [e1, e2][1..] == [e2];
    if IsRun(w2, [e2]) {
      RunCons(w1, e1, [e2]);
      RunCons(w, e0, [e1, e2]);
      assert [e0] + [e1, e2] == [e0, e1, e2] && [e1] + [e2] == [e1, e2];
    }
  }

  /** And of its end: woken and picked up again, a job that recorded its discovery completes exactly when all
      of its children succeeded, with warnings if there are any. */
  lemma DiscoveredJobCompletesIffChildrenDid(w: World, p: Id, warnings: bool)
    requires IsParent(w, p) && At(w, p).Idle? && Discovered(w.jobs[p])
    requires w.jobs[p].state in {WAITING_RETRY, WAITING_QUOTA}
    ensures var events := [Move(p, RUNNING), Start(p), Count(p), Complete(p, warnings)];
            && (IsRun(w, events) <==> AllSucceeded(w.jobs, p))
            && (IsRun(w, events) ==> EndsIn(Exec(w, events), p, warnings))
  {
    var e0, rest := Move(p, RUNNING), [Start(p), Count(p), Complete(p, warnings)];
    var running := Next(w, e0);
    MovedFamily(w.jobs, running.jobs, p);
    PickedUpCompletes(running, p, warnings);
    assert [e0, Start(p), Count(p), Complete(p, warnings)][1..] == rest;
    if IsRun(running, rest) {
      RunCons(w, e0, rest);
      assert [e0] + rest == [e0, Start(p), Count(p), Complete(p, warnings)];
    }
  }

  /** A job is no child of its own, so its move says nothing about its children. */
  lemma MovedFamily(jobs: JobMap, after: JobMap, p: Id)
    requires p in jobs && jobs[p].parent.None? && after.Keys == jobs.Keys
    requires forall j :: j in jobs && j != p ==> after[j] == jobs[j]
    requires after[p].parent == jobs[p].parent
    ensures AllSucceeded(after, p) <==> AllSucceeded(jobs, p)
  {
    forall c ensures IsChild(after, c, p) <==> IsChild(jobs, c, p) {
    }
  }

  // ---- and in the gap it is unsafe -----------------------------------------------------

  /** What a worker does between picking a job up and ending it. */
  predicate WorksOn(e: Event, p: Id) {
    (e.Discover? || e.MarkDiscovered? || e.Count?) && e.p == p
  }

  /** Past its start, and not on a count that lets the job complete. */
  predicate Barred(at: Progress) {
    match at
    case Enqueued | Marked => true
    case Counted(s) => s.terminal < s.total || s.failed > 0
    case Idle | Started(_, _) => false
  }

  lemma StepBars(w: World, e: Event, p: Id)
    requires Enabled(w, e) && WorksOn(e, p) && (Barred(At(w, p)) || (At(w, p).Started? && !AllSucceeded(w.jobs, p)))
    ensures Barred(At(Next(w, e), p))
  {
    if e.Count? {
      SummaryDecidesSuccess(w.jobs, p);
    }
  }

  lemma {:induction false} BarredNeverCompletes(w: World, p: Id, steps: seq<Event>, warnings: bool)
    requires Barred(At(w, p)) && forall e :: e in steps ==> WorksOn(e, p)
    ensures !IsRun(w, steps + [Complete(p, warnings)])
    decreases |steps|
  {
    var events := steps + [Complete(p, warnings)];
    if steps != [] && Enabled(w, steps[0]) {
      assert steps[0] in steps && events[1..] == steps[1..] + [Complete(p, warnings)];
      StepBars(w, steps[0], p);
      BarredNeverCompletes(Next(w, steps[0]), p, steps[1..], warnings);
    }
  }

  lemma StartedCompletesIffInGap(w: World, p: Id, warnings: bool)
    requires Enabled(w, Start(p)) && p !in w.direct && !AllSucceeded(w.jobs, p)
    ensures IsRun(Next(w, Start(p)), [Complete(p, warnings)]) <==> InGap(w, p)
  {
    var started := Next(w, Start(p));
    var c :| IsChild(w.jobs, c, p) && !Succeeded(w.jobs[c].state);
    assert Enabled(started, Complete(p, warnings)) <==> InGap(w, p);
    assert [Complete(p, warnings)][1..] == [];
  }

  /** Exactly when a worker that picks up a job whose children have not all succeeded can complete it:
      when it finds the job in the gap, and then without any other step. */
  lemma PickUpCompletesIffInGap(w: World, p: Id, steps: seq<Event>, warnings: bool)
    requires Enabled(w, Start(p)) && p !in w.direct && !AllSucceeded(w.jobs, p)
    requires forall e :: e in steps ==> WorksOn(e, p)
    ensures IsRun(w, [Start(p)] + steps + [Complete(p, warnings)]) <==> steps == [] && InGap(w, p)
  {
    var started := Next(w, Start(p));
    var rest := steps + [Complete(p, warnings)];
    assert ([Start(p)] + steps + [Complete(p, warnings)])[1..] == rest;
    if steps == [] {
      assert rest == [Complete(p, warnings)];
      StartedCompletesIffInGap(w, p, warnings);
    } else if Enabled(started, steps[0]) {
      assert steps[0] in steps && rest[1..] == steps[1..] + [Complete(p, warnings)];
      StepBars(started, steps[0], p);
      BarredNeverCompletes(Next(started, steps[0]), p, steps[1..], warnings);
    }
  }

  /** The gap is the only way out: a job in it that is picked up again takes the inline path and
      succeeds, whatever state its children are in. */
  lemma GapIsUnsafe(w: World, p: Id)
    requires InGap(w, p) && w.jobs[p].state == RUNNING && !AllSucceeded(w.jobs, p)
    ensures IsRun(w, [Start(p), Complete(p, false)])
    ensures !Safe(Exec(w, [Start(p), Complete(p, false)]))
  {
    var started := Next(w, Start(p));
    assert Enabled(started, Complete(p, false));
    var after := Next(started, Complete(p, false));
    var events := [Start(p), Complete(p, false)];
    assert events[1..] == [Complete(p, false)];
    assert [Complete(p, false)][1..] == [];
    var c :| IsChild(w.jobs, c, p) && !Succeeded(w.jobs[c].state);
    assert c != p && IsChild(after.jobs, c, p) && after.jobs[c] == w.jobs[c];
    assert Finished(after, p);
    assert Exec(after, []) == after;
    assert Exec(started, [Complete(p, false)]) == after;
  }

  /** And any run of discovery can end in the gap: a merge detaches the job, and the worker crashes
      between creating the children and recording that it did. */
  lemma GapIsReachable(w: World, p: Id, video: string, id: Id)
    requires IsParent(w, p) && At(w, p) == Started(false, true) && p !in w.direct && !Discovered(w.jobs[p])
    requires id !in w.jobs && video != "" && !HasChildFor(w.jobs, p, video)
    requires forall c :: c in w.jobs ==> w.jobs[c].parent != Some(id)
    ensures var events := [Discover(p, [video], [id], 0), Detach(p), Crash(p)];
            IsRun(w, events) && InGap(Exec(w, events), p)
  {
    var e0, e1, e2 := Discover(p, [video], [id], 0), Detach(p), Crash(p);
    OneVideo(w.jobs, p, w.jobs[p], video, id, 0);
    var w1 := Next(w, e0);
    var w2 := Next(w1, e1);
    var w3 := Next(w2, e2);
    assert IsChild(w3.jobs, id, p);
    RunCons(w2, e2, []);
    RunCons(w1, e1, [e2]);
    RunCons(w, e0, [e1, e2]);
    assert [e0] + [e1, e2] == [e0, e1, e2] && [e1] + [e2] == [e1, e2] && [e2] + [] == [e2];
  }

  lemma OneVideo(jobs: JobMap, p: Id, parent: Job, video: string, id: Id, now: int)
    requires id !in jobs && video != "" && !HasChildFor(jobs, p, video)
    ensures UnusedIds(jobs, [id])
    ensures EnqueueVideoJobs(jobs, p, parent, [video], [id], now) == jobs[id := ChildJob(p, parent, video, now)]
  {
    assert [video][..0] == [] && [id][..0] == [];
    assert EnqueueVideoJobs(jobs, p, parent, [], [], now) == jobs;
  }

  lemma RunCons(w: World, e: Event, rest: seq<Event>)
    requires Enabled(w, e) && IsRun(Next(w, e), rest)
    ensures IsRun(w, [e] + rest) && Exec(w, [e] + rest) == Exec(Next(w, e), rest)
  {
    assert ([e] + rest)[1..] == rest;
  }
}
