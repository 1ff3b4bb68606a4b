/** Lease exclusion: claim_next_job, renew_job_lease and the runner's transitions, over any run.
    apps/api/monitube_api/infrastructure/memory_jobs.py, apps/worker/monitube_worker/runner.py */
module Leases {
  import opened Common
  import opened Jobs

  /** A worker knows how long it may work on a job: the deadline of its last successful claim or
      renewal, until it gives the job back. */
  datatype World = World(now: int, jobs: JobMap, deadlines: map<(Id, Id), int>)

  datatype Event =
    | Tick(elapsed: nat)
    | NewJob(j: Id, job: Job)
    | DeleteJob(j: Id)
    | Claim(j: Id, worker: Id, seconds: int)
    | Renew(j: Id, worker: Id, seconds: int)
    // A transition by the worker, which may set the lease fields.
    | HolderMove(j: Id, worker: Id, state: JobState, changes: Changes)
    // A transition through the API, which has no lease fields.
    | OutsiderMove(j: Id, state: JobState, changes: Changes)

  predicate Holds(w: World, worker: Id, j: Id) {
    (worker, j) in w.deadlines && w.deadlines[(worker, j)] > w.now
  }

  predicate TouchesLease(changes: Changes) {
    changes.leaseOwner.Some? || changes.leaseExpires.Some?
  }

  /** The runner only ever clears the lease, both fields at once. */
  predicate ClearsLease(changes: Changes) {
    changes.leaseOwner == Some(None) && changes.leaseExpires == Some(None)
  }

  ghost predicate Enabled(w: World, e: Event) {
    match e
    case Tick(_) => true
    case NewJob(j, job) => j !in w.jobs && job.leaseExpires.None? && forall worker :: (worker, j) !in w.deadlines
    case DeleteJob(j) => j in w.jobs
    case Claim(j, worker, seconds) => IsOldestClaimable(w.jobs, j, w.now)
    case Renew(j, worker, seconds) => j in w.jobs && Renewable(w.jobs[j], worker)
    case HolderMove(j, worker, state, changes) =>
      j in w.jobs && CanMove(w.jobs[j].state, state) && (TouchesLease(changes) ==> ClearsLease(changes))
    case OutsiderMove(j, state, changes) => j in w.jobs && CanMove(w.jobs[j].state, state) && !TouchesLease(changes)
  }

  function Next(w: World, e: Event): World
    requires match e
             case Claim(j, _, _) => j in w.jobs
             case Renew(j, _, _) => j in w.jobs
             case HolderMove(j, _, _, _) => j in w.jobs
             case OutsiderMove(j, _, _) => j in w.jobs
             case _ => true
  {
    match e
    case Tick(elapsed) => w.(now := w.now + elapsed)
    case NewJob(j, job) => w.(jobs := w.jobs[j := job])
    case DeleteJob(j) => w.(jobs := w.jobs - {j})
    case Claim(j, worker, seconds) =>
      w.(jobs := w.jobs[j := Claimed(w.jobs[j], worker, w.now, seconds)],
         deadlines := w.deadlines[(worker, j) := w.now + seconds])
    case Renew(j, worker, seconds) =>
      w.(jobs := w.jobs[j := Renewed(w.jobs[j], w.now, seconds)],
         deadlines := w.deadlines[(worker, j) := w.now + seconds])
    case HolderMove(j, worker, state, changes) =>
      w.(jobs := w.jobs[j := Moved(w.jobs[j], state, changes)],
         deadlines := if TouchesLease(changes) then w.deadlines - {(worker, j)} else w.deadlines)
    case OutsiderMove(j, state, changes) => w.(jobs := w.jobs[j := Moved(w.jobs[j], state, changes)])
  }

  // ---- exclusion -----------------------------------------------------------------------

  /** Two workers never both hold one job. */
  ghost predicate Exclusive(w: World) {
    forall a, b, j :: Holds(w, a, j) && Holds(w, b, j) ==> a == b
  }

  /** A held job is leased to its holder until the holder's deadline. */
  ghost predicate Backed(w: World) {
    forall a, j :: Holds(w, a, j) && j in w.jobs ==>
      w.jobs[j].leaseOwner == Some(a) && w.jobs[j].leaseExpires == Some(w.deadlines[(a, j)])
  }

  ghost predicate Inv(w: World) {
    Exclusive(w) && Backed(w)
  }

  ghost predicate OthersHold(w: World, worker: Id, j: Id) {
    exists other :: other != worker && Holds(w, other, j)
  }

  /** The holder acts inside its window: or at least, nobody else's window is open. */
  ghost predicate InWindow(w: World, e: Event) {
    e.HolderMove? && TouchesLease(e.changes) ==> Holds(w, e.worker, e.j)
  }

  lemma StepKeepsExclusion(w: World, e: Event)
    requires Inv(w) && Enabled(w, e) && InWindow(w, e)
    ensures Inv(Next(w, e))
  {
    var after := Next(w, e);
    forall a, j | Holds(after, a, j) && j in after.jobs
      ensures after.jobs[j].leaseOwner == Some(a) && after.jobs[j].leaseExpires == Some(after.deadlines[(a, j)])
    {
      BackedAt(w, e, a, j);
    }
    forall a, b, j | Holds(after, a, j) && Holds(after, b, j) ensures a == b {
      ExclusiveAt(w, e, a, b, j);
    }
  }

  lemma BackedAt(w: World, e: Event, a: Id, j: Id)
    requires Inv(w) && Enabled(w, e) && InWindow(w, e)
    requires Holds(Next(w, e), a, j) && j in Next(w, e).jobs
    ensures Next(w, e).jobs[j].leaseOwner == Some(a) && Next(w, e).jobs[j].leaseExpires == Some(Next(w, e).deadlines[(a, j)])
  {
    if e.HolderMove? && e.j == j && a != e.worker {
      assert Holds(w, a, j);
    }
  }

  lemma NewHolderIsAlone(w: World, e: Event, a: Id)
    requires Inv(w) && Enabled(w, e) && (e.Claim? || e.Renew?) && Holds(Next(w, e), a, e.j)
    ensures a == e.worker
  {
    if a != e.worker {
      assert (a, e.j) != (e.worker, e.j);
      assert Holds(w, a, e.j);
      assert false;
    }
  }

  lemma ExclusiveAt(w: World, e: Event, a: Id, b: Id, j: Id)
    requires Inv(w) && Enabled(w, e) && Holds(Next(w, e), a, j) && Holds(Next(w, e), b, j)
    ensures a == b
  {
    if (e.Claim? || e.Renew?) && e.j == j {
      NewHolderIsAlone(w, e, a);
      NewHolderIsAlone(w, e, b);
    } else {
      assert Holds(w, a, j) && Holds(w, b, j);
    }
  }

  /** Giving a job back is safe exactly when nobody else holds it: a transition made after one's own
      lease ran out and the job was reclaimed takes the lease away from its new holder. */
  lemma ReleaseIsSafeIffNobodyElseHolds(w: World, j: Id, worker: Id, state: JobState, changes: Changes)
    requires Inv(w) && Enabled(w, HolderMove(j, worker, state, changes)) && ClearsLease(changes)
    ensures Inv(Next(w, HolderMove(j, worker, state, changes))) <==> !OthersHold(w, worker, j)
  {
    var after := Next(w, HolderMove(j, worker, state, changes));
    if OthersHold(w, worker, j) {
      var other :| other != worker && Holds(w, other, j);
      assert Holds(after, other, j) && after.jobs[j].leaseOwner == None;
    } else {
      forall a, i | Holds(after, a, i) ensures Holds(w, a, i) && i != j {
        assert (a, i) in w.deadlines && after.deadlines[(a, i)] == w.deadlines[(a, i)];
        assert Holds(w, a, i);
      }
    }
  }

  ghost predicate IsRun(w: World, events: seq<Event>)
    decreases |events|
  {
    events == [] || (Enabled(w, events[0]) && InWindow(w, events[0]) && IsRun(Next(w, events[0]), events[1..]))
  }

  ghost function Exec(w: World, events: seq<Event>): World
    requires IsRun(w, events)
    decreases |events|
  {
    if events == [] then w else Exec(Next(w, events[0]), events[1..])
  }

  /** Over any run of ticks, claims, renewals, API transitions and holders' transitions, two workers
      never both have an open window on one job. */
  lemma {:induction false} LeasesExclude(w: World, events: seq<Event>)
    requires Inv(w) && IsRun(w, events)
    ensures Exclusive(Exec(w, events))
    decreases |events|
  {
    if events != [] {
      StepKeepsExclusion(w, events[0]);
      LeasesExclude(Next(w, events[0]), events[1..]);
    }
  }

  lemma NoDeadlinesIsSafe(w: World)
    requires w.deadlines == map[]
    ensures Inv(w)
  {
  }

  /** From any store of jobs in which no worker holds anything yet. */
  lemma LeasesExcludeFromStart(w: World, events: seq<Event>)
    requires w.deadlines == map[] && IsRun(w, events)
    ensures Exclusive(Exec(w, events))
  {
    NoDeadlinesIsSafe(w);
    LeasesExclude(w, events);
  }

  /** Without the window a stale worker breaks exclusion: after its release a third worker claims
      the job under the second worker's nose. */
  lemma StaleReleaseBreaksExclusion(w: World, j: Id, holder: Id, stale: Id, third: Id, seconds: int)
    requires j in w.jobs && Holds(w, holder, j) && holder != stale && holder != third && seconds > 0
    requires w.jobs[j].state == RUNNING && forall other :: other in w.jobs ==> other == j
    ensures var release := HolderMove(j, stale, WAITING_RETRY, Changes(None, Some(Some(w.now)), Some(None), Some(None)));
            && Enabled(w, release)
            && Enabled(Next(w, release), Claim(j, third, seconds))
            && !Exclusive(Next(Next(w, release), Claim(j, third, seconds)))
  {
    var release := HolderMove(j, stale, WAITING_RETRY, Changes(None, Some(Some(w.now)), Some(None), Some(None)));
    var released := Next(w, release);
    assert IsOldestClaimable(released.jobs, j, released.now);
    var after := Next(released, Claim(j, third, seconds));
    assert Holds(after, holder, j) && Holds(after, third, j);
  }

  lemma RunCons(w: World, e: Event, rest: seq<Event>)
    requires Enabled(w, e) && InWindow(w, e) && IsRun(Next(w, e), rest)
    ensures IsRun(w, [e] + rest) && Exec(w, [e] + rest) == Exec(Next(w, e), rest)
  {
    assert ([e] + rest)[1..] == rest;
  }

  /** A job is claimed, its lease runs out, and another worker claims it. */
  function Reclaimed(j: Id, job: Job, stale: Id, holder: Id, seconds: nat): seq<Event> {
    [NewJob(j, job)] + ([Claim(j, stale, seconds)] + ([Tick(seconds)] + ([Claim(j, holder, seconds)] + [])))
  }

  lemma ReclaimHolds(now: int, j: Id, job: Job, stale: Id, holder: Id, seconds: nat)
    requires job.state == QUEUED && job.leaseExpires.None? && seconds > 0
    ensures IsRun(World(now, map[], map[]), Reclaimed(j, job, stale, holder, seconds))
    ensures var w := Exec(World(now, map[], map[]), Reclaimed(j, job, stale, holder, seconds));
            w.jobs.Keys == {j} && w.jobs[j].state == RUNNING && Holds(w, holder, j)
  {
    var w0 := World(now, map[], map[]);
    var w1 := Next(w0, NewJob(j, job));
    var w2 := Next(w1, Claim(j, stale, seconds));
    var w3 := Next(w2, Tick(seconds));
    assert IsOldestClaimable(w1.jobs, j, w1.now);
    assert IsOldestClaimable(w3.jobs, j, w3.now);
    RunCons(w3, Claim(j, holder, seconds), []);
    RunCons(w2, Tick(seconds), [Claim(j, holder, seconds)] + []);
    RunCons(w1, Claim(j, stale, seconds), [Tick(seconds)] + ([Claim(j, holder, seconds)] + []));
    RunCons(w0, NewJob(j, job), [Claim(j, stale, seconds)] + ([Tick(seconds)] + ([Claim(j, holder, seconds)] + [])));
  }

  /** And a run from an empty store leads there: the stale worker's own lease ran out first. */
  lemma StaleReleaseIsReachable(now: int, j: Id, job: Job, stale: Id, holder: Id, third: Id, seconds: nat)
    requires job.state == QUEUED && job.leaseExpires.None? && seconds > 0
    requires holder != stale && holder != third
    ensures var start, events := World(now, map[], map[]), Reclaimed(j, job, stale, holder, seconds);
            && IsRun(start, events)
            && var w := Exec(start, events);
               var release := HolderMove(j, stale, WAITING_RETRY, Changes(None, Some(Some(w.now)), Some(None), Some(None)));
               && Enabled(w, release)
               && Enabled(Next(w, release), Claim(j, third, seconds))
               && !Exclusive(Next(Next(w, release), Claim(j, third, seconds)))
  {
    ReclaimHolds(now, j, job, stale, holder, seconds);
    var w := Exec(World(now, map[], map[]), Reclaimed(j, job, stale, holder, seconds));
    StaleReleaseBreaksExclusion(w, j, holder, stale, third, seconds);
  }
}
