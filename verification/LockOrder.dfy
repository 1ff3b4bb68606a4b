/** The row locks of concurrent transition_job transactions:
    apps/api/monitube_api/infrastructure/postgres_jobs.py */
module LockOrder {
  import opened Common
  import opened Ordering

  datatype Resource = TargetRow(id: string) | JobRow(id: string)

  /** Targets by id, then jobs. */
  predicate Below(a: Resource, b: Resource) {
    if a.TargetRow? == b.TargetRow? then Before(a.id, b.id) else a.TargetRow?
  }

  lemma BelowIsTotal()
    ensures StrictTotal(Below)
    ensures StrictTotal(Before)
  {
    forall a: Resource, b: Resource ensures !Below(a, a) && (a == b || Below(a, b) || Below(b, a)) {
      BeforeTotal(a.id, a.id);
      BeforeTotal(a.id, b.id);
    }
    forall a: Resource, b: Resource, c: Resource | Below(a, b) && Below(b, c) ensures Below(a, c) {
      if a.TargetRow? == b.TargetRow? == c.TargetRow? {
        BeforeTransitive(a.id, b.id, c.id);
      }
    }
    forall a: string, b: string ensures !Before(a, a) && (a == b || Before(a, b) || Before(b, a)) {
      BeforeTotal(a, a);
      BeforeTotal(a, b);
    }
    forall a: string, b: string, c: string | Before(a, b) && Before(b, c) ensures Before(a, c) {
      BeforeTransitive(a, b, c);
    }
  }

  // ---- the plan of one transaction ---------------------------------------------------

  /** What transition_job reads before it locks: the job's target, whether the move ends a job that
      was running and has no parent, and the targets that share one of its videos. */
  datatype Hint = Hint(job: string, target: Option<string>, endsParent: bool, sharing: set<string>)

  ghost function RowsOf(ids: seq<string>): seq<Resource> {
    seq(|ids|, i requires 0 <= i < |ids| => TargetRow(ids[i]))
  }

  /** The targets to lock, in the order of their ids. */
  ghost function OrderedTargets(h: Hint): seq<string> {
    BelowIsTotal();
    match h.target
    case None => []
    case Some(target) => if h.endsParent then Sorted(h.sharing + {target}, Before) else [target]
  }

  ghost function LockPlan(h: Hint): seq<Resource> {
    RowsOf(OrderedTargets(h)) + [JobRow(h.job)]
  }

  lemma RowsHold(ids: seq<string>, job: string, t: string)
    requires t in ids
    ensures TargetRow(t) in RowsOf(ids) + [JobRow(job)]
  {
    var i :| 0 <= i < |ids| && ids[i] == t;
    assert (RowsOf(ids) + [JobRow(job)])[i] == TargetRow(t);
  }

  lemma OrderedTargetsAre(h: Hint)
    ensures InOrder(OrderedTargets(h), Before)
    ensures h.target.Some? ==> h.target.value in OrderedTargets(h)
    ensures h.target.Some? && h.endsParent ==> forall t :: t in h.sharing ==> t in OrderedTargets(h)
  {
    BelowIsTotal();
    if h.target.Some? && h.endsParent {
      SortedInOrder(h.sharing + {h.target.value}, Before);
    }
  }

  /** Every plan locks upwards, its own target among the rest, and the job row last. */
  lemma LockPlanAscends(h: Hint)
    ensures InOrder(LockPlan(h), Below)
    ensures LockPlan(h) != [] && LockPlan(h)[|LockPlan(h)| - 1] == JobRow(h.job)
    ensures h.target.Some? ==> TargetRow(h.target.value) in LockPlan(h)
    ensures h.target.Some? && h.endsParent ==> forall t :: t in h.sharing ==> TargetRow(t) in LockPlan(h)
  {
    OrderedTargetsAre(h);
    forall t | t in OrderedTargets(h) ensures TargetRow(t) in LockPlan(h) {
      RowsHold(OrderedTargets(h), h.job, t);
    }
  }

  // ---- any number of transactions at once ----------------------------------------------

  /** A running transaction holds the first `held` rows of its plan. */
  datatype Txn = Txn(plan: seq<Resource>, held: nat)

  /** The transactions that have not committed yet. */
  type Running = map<string, Txn>

  predicate Holds(t: Txn, r: Resource) {
    t.held <= |t.plan| && r in t.plan[..t.held]
  }

  ghost predicate Free(w: Running, r: Resource) {
    forall x :: x in w ==> !Holds(w[x], r)
  }

  ghost predicate Inv(w: Running) {
    && (forall x :: x in w ==> w[x].held <= |w[x].plan| && InOrder(w[x].plan, Below))
    && forall x, y, r :: x in w && y in w && Holds(w[x], r) && Holds(w[y], r) ==> x == y
  }

  /** A transaction can go on when it has all its rows, or when the next one is free. */
  ghost predicate CanProceed(w: Running, x: string) {
    x in w && w[x].held <= |w[x].plan| && (w[x].held == |w[x].plan| || Free(w, w[x].plan[w[x].held]))
  }

  ghost function Proceed(w: Running, x: string): Running
    requires CanProceed(w, x)
  {
    if w[x].held == |w[x].plan| then w - {x} else w[x := w[x].(held := w[x].held + 1)]
  }

  lemma ProceedKeepsInv(w: Running, x: string)
    requires Inv(w) && CanProceed(w, x)
    ensures Inv(Proceed(w, x))
  {
    var after := Proceed(w, x);
    forall a, b, r | a in after && b in after && Holds(after[a], r) && Holds(after[b], r) ensures a == b {
    }
  }

  /** The row a transaction waits for. */
  function Wants(t: Txn): Resource
    requires t.held < |t.plan|
  {
    t.plan[t.held]
  }

  ghost predicate AllWait(w: Running) {
    forall x :: x in w ==> w[x].held < |w[x].plan|
  }

  /** Deadlock freedom: as long as a transaction is running, one of them can proceed. */
  lemma SomeoneCanProceed(w: Running)
    requires Inv(w) && w != map[]
    ensures exists x :: CanProceed(w, x)
  {
    if AllWait(w) {
      assert w.Keys != {} by {
        var x :| x in w;
      }
      var x := TopWaiter(w, w.Keys);
      forall y | y in w ensures !Holds(w[y], Wants(w[x])) {
      }
      assert CanProceed(w, x);
    } else {
      var x :| x in w && w[x].held >= |w[x].plan|;
      assert CanProceed(w, x);
    }
  }

  /** One that waits for a highest row. */
  lemma {:induction false} TopWaiter(w: Running, among: set<string>) returns (top: string)
    requires AllWait(w) && among != {} && among <= w.Keys
    ensures top in among && forall y :: y in among ==> !Below(Wants(w[top]), Wants(w[y]))
  {
    BelowIsTotal();
    top :| top in among;
    var rest := among - {top};
    if rest != {} {
      var other := TopWaiter(w, rest);
      if Below(Wants(w[top]), Wants(w[other])) {
        top := other;
      }
    }
  }

  // ---- and all of them finish -------------------------------------------------------------

  /** Rows still to take, plus one commit, over all running transactions. */
  ghost function Work(w: Running): nat
    decreases w.Keys
  {
    if w == map[] then 0
    else
      var x :| x in w;
      Left(w[x]) + Work(w - {x})
  }

  function Left(t: Txn): nat {
    if t.held <= |t.plan| then |t.plan| - t.held + 1 else 0
  }

  /** The sum does not depend on the order of summation. */
  lemma {:induction false} WorkWithout(w: Running, x: string)
    requires x in w
    ensures Work(w) == Left(w[x]) + Work(w - {x})
    decreases w.Keys
  {
    var y :| y in w && Work(w) == Left(w[y]) + Work(w - {y});
    if y != x {
      WorkWithout(w - {y}, x);
      WorkWithout(w - {x}, y);
      assert w - {y} - {x} == w - {x} - {y};
    }
  }

  lemma ProceedIsProgress(w: Running, x: string)
    requires Inv(w) && CanProceed(w, x)
    ensures Work(Proceed(w, x)) == Work(w) - 1
  {
    WorkWithout(w, x);
    var after := Proceed(w, x);
    if x in after {
      WorkWithout(after, x);
      assert after - {x} == w - {x};
    }
  }

  ghost predicate IsRun(w: Running, steps: seq<string>)
    decreases |steps|
  {
    steps == [] || (CanProceed(w, steps[0]) && IsRun(Proceed(w, steps[0]), steps[1..]))
  }

  ghost function Exec(w: Running, steps: seq<string>): Running
    requires IsRun(w, steps)
    decreases |steps|
  {
    if steps == [] then w else Exec(Proceed(w, steps[0]), steps[1..])
  }

  /** Every schedule of the transactions is finite, one that cannot be extended has committed all of
      them, and it took exactly one step per row and one per commit. */
  lemma {:induction false} EveryScheduleFinishes(w: Running, steps: seq<string>)
    requires Inv(w) && IsRun(w, steps)
    ensures |steps| + Work(Exec(w, steps)) == Work(w)
    ensures (forall x :: !CanProceed(Exec(w, steps), x)) ==> Exec(w, steps) == map[]
    decreases |steps|
  {
    if steps == [] {
      if w != map[] {
        SomeoneCanProceed(w);
      }
    } else {
      ProceedKeepsInv(w, steps[0]);
      ProceedIsProgress(w, steps[0]);
      EveryScheduleFinishes(Proceed(w, steps[0]), steps[1..]);
    }
  }

  /** A set of transitions, before any of them has locked a row. */
  ghost function Transitions(hints: map<string, Hint>): Running {
    map x | x in hints :: Txn(LockPlan(hints[x]), 0)
  }

  /** Any set of transitions may start together. */
  lemma TransitionsMayStart(hints: map<string, Hint>)
    ensures Inv(Transitions(hints))
  {
    forall x | x in hints ensures InOrder(LockPlan(hints[x]), Below) {
      LockPlanAscends(hints[x]);
    }
  }

  /** And in whatever order they take their steps, all of them commit. */
  lemma TransitionsAllCommit(hints: map<string, Hint>, steps: seq<string>)
    requires IsRun(Transitions(hints), steps)
    ensures |steps| + Work(Exec(Transitions(hints), steps)) == Work(Transitions(hints))
    ensures (forall x :: !CanProceed(Exec(Transitions(hints), steps), x)) ==> Exec(Transitions(hints), steps) == map[]
  {
    TransitionsMayStart(hints);
    EveryScheduleFinishes(Transitions(hints), steps);
  }

  lemma PlanOfTwo(current: string, existing: string, job: string)
    requires Before(existing, current)
    ensures LockPlan(Hint(job, Some(existing), true, {current})) == [TargetRow(existing), TargetRow(current), JobRow(job)]
  {
    BelowIsTotal();
    var both := {current} + {existing};
    SortedInOrder(both, Before);
    var expected := [existing, current];
    assert forall x :: x in expected <==> x in both;
    OrderIsUnique(Sorted(both, Before), expected, Before);
    assert RowsOf(expected) == [TargetRow(existing), TargetRow(current)];
  }

  // ---- a promotion among them -------------------------------------------------------------

  const PROMOTION := "promotion"

  /** A promotion locks its own target, the one it merges into, and then the unfinished jobs of both
      in the order of their creation. */
  ghost function PromotionPlan(current: string, existing: string, jobs: seq<string>): seq<Resource> {
    [TargetRow(current), TargetRow(existing)] + JobRows(jobs)
  }

  ghost function JobRows(jobs: seq<string>): seq<Resource> {
    seq(|jobs|, i requires 0 <= i < |jobs| => JobRow(jobs[i]))
  }

  /** The promotion and any transitions, before any of them has locked a row. */
  ghost function Start(current: string, existing: string, jobs: seq<string>, hints: map<string, Hint>): Running {
    Transitions(hints)[PROMOTION := Txn(PromotionPlan(current, existing, jobs), 0)]
  }

  ghost predicate Stuck(w: Running) {
    w != map[] && forall x :: !CanProceed(w, x)
  }

  /** Whatever transitions run beside the promotion, and in whatever order they all take their steps. */
  ghost predicate NeverStuck(current: string, existing: string, jobs: seq<string>) {
    forall hints: map<string, Hint>, steps: seq<string> ::
      PROMOTION !in hints && IsRun(Start(current, existing, jobs, hints), steps) ==>
        !Stuck(Exec(Start(current, existing, jobs, hints), steps))
  }

  /** The plan of a transition: upwards, with one job row at the end. */
  ghost predicate TransitionPlan(plan: seq<Resource>) {
    InOrder(plan, Below) && plan != [] && forall i :: 0 <= i < |plan| - 1 ==> plan[i].TargetRow?
  }

  ghost predicate Alone(w: Running) {
    forall x, y, r :: x in w && y in w && Holds(w[x], r) && Holds(w[y], r) ==> x == y
  }

  ghost predicate MixedInv(w: Running, current: string, existing: string, jobs: seq<string>) {
    && Alone(w)
    && (forall x :: x in w ==> w[x].held <= |w[x].plan|)
    && (forall x :: x in w && x != PROMOTION ==> TransitionPlan(w[x].plan))
    && (PROMOTION in w ==> w[PROMOTION].plan == PromotionPlan(current, existing, jobs))
  }

  lemma MixedStart(current: string, existing: string, jobs: seq<string>, hints: map<string, Hint>)
    requires PROMOTION !in hints
    ensures MixedInv(Start(current, existing, jobs, hints), current, existing, jobs)
  {
    forall x | x in hints ensures TransitionPlan(LockPlan(hints[x])) {
      LockPlanAscends(hints[x]);
    }
  }

  lemma MixedKept(w: Running, x: string, current: string, existing: string, jobs: seq<string>)
    requires MixedInv(w, current, existing, jobs) && CanProceed(w, x)
    ensures MixedInv(Proceed(w, x), current, existing, jobs)
  {
    var after := Proceed(w, x);
    forall a, b, r | a in after && b in after && Holds(after[a], r) && Holds(after[b], r) ensures a == b {
    }
  }

  lemma {:induction false} MixedRun(w: Running, steps: seq<string>, current: string, existing: string, jobs: seq<string>)
    requires MixedInv(w, current, existing, jobs) && IsRun(w, steps)
    ensures MixedInv(Exec(w, steps), current, existing, jobs)
    decreases |steps|
  {
    if steps != [] {
      MixedKept(w, steps[0], current, existing, jobs);
      MixedRun(Proceed(w, steps[0]), steps[1..], current, existing, jobs);
    }
  }

  /** A transition that holds a job row holds all its rows. */
  lemma JobRowIsLast(t: Txn, job: string)
    requires TransitionPlan(t.plan) && Holds(t, JobRow(job))
    ensures t.held == |t.plan|
  {
    var i :| 0 <= i < t.held && t.plan[..t.held][i] == JobRow(job);
    assert t.plan[i] == JobRow(job);
  }

  /** Past its two targets, a promotion only waits for transitions that have all their rows. */
  lemma PromotionPastTargets(w: Running, current: string, existing: string, jobs: seq<string>)
    requires MixedInv(w, current, existing, jobs) && NoDuplicates(jobs)
    requires PROMOTION in w && w[PROMOTION].held >= 2
    ensures exists x :: CanProceed(w, x)
  {
    var p := w[PROMOTION];
    if p.held == |p.plan| || Free(w, p.plan[p.held]) {
      assert CanProceed(w, PROMOTION);
    } else {
      var job := jobs[p.held - 2];
      assert p.plan[p.held] == JobRow(job);
      assert !Holds(p, JobRow(job));
      var y :| y in w && y != PROMOTION && Holds(w[y], JobRow(job));
      JobRowIsLast(w[y], job);
      assert CanProceed(w, y);
    }
  }

  /** Until then it locks like a transition, if its targets ascend. */
  lemma PromotionAtTargets(w: Running, current: string, existing: string, jobs: seq<string>)
    requires MixedInv(w, current, existing, jobs) && Before(current, existing)
    requires PROMOTION in w && w[PROMOTION].held < 2
    ensures exists x :: CanProceed(w, x)
  {
    var targets := [TargetRow(current), TargetRow(existing)];
    var p := Txn(targets, w[PROMOTION].held);
    var cut := w[PROMOTION := p];
    assert p.plan[..p.held] == w[PROMOTION].plan[..p.held];
    forall x, r | x in w ensures Holds(cut[x], r) == Holds(w[x], r) {
    }
    assert PROMOTION in cut && InOrder(targets, Below);
    SomeoneCanProceed(cut);
    var x :| CanProceed(cut, x);
    SameNextRow(w, cut, x);
  }

  lemma SameNextRow(w: Running, cut: Running, x: string)
    requires cut.Keys == w.Keys && CanProceed(cut, x)
    requires forall y, r :: y in w ==> Holds(cut[y], r) == Holds(w[y], r)
    requires x != PROMOTION ==> cut[x] == w[x]
    requires x == PROMOTION ==> w[x].held == cut[x].held < |cut[x].plan| && cut[x].plan <= w[x].plan
    ensures CanProceed(w, x)
  {
    if w[x].held < |w[x].plan| {
      assert w[x].plan[w[x].held] == cut[x].plan[cut[x].held];
    }
  }

  lemma MixedProgress(w: Running, current: string, existing: string, jobs: seq<string>)
    requires MixedInv(w, current, existing, jobs) && NoDuplicates(jobs) && Before(current, existing) && w != map[]
    ensures exists x :: CanProceed(w, x)
  {
    if PROMOTION !in w {
      SomeoneCanProceed(w);
    } else if w[PROMOTION].held < 2 {
      PromotionAtTargets(w, current, existing, jobs);
    } else {
      PromotionPastTargets(w, current, existing, jobs);
    }
  }

  /** A transition that touches both targets of a downward promotion locks the lower one, and each
      waits for the other: two steps from the start. */
  lemma DownwardsGetsStuck(current: string, existing: string, jobs: seq<string>)
    requires Before(existing, current)
    ensures !NeverStuck(current, existing, jobs)
  {
    var hint := Hint("job", Some(existing), true, {current});
    PlanOfTwo(current, existing, "job");
    var w := Start(current, existing, jobs, map["transition" := hint]);
    var p, t := PromotionPlan(current, existing, jobs), LockPlan(hint);
    assert w == Two(p, 0, t, 0);
    BeforeTotal(existing, current);
    BothBlocked(p, t, TargetRow(current), TargetRow(existing));
    assert IsRun(w, [PROMOTION, "transition"]) && Stuck(Exec(w, [PROMOTION, "transition"]));
  }

  ghost function Two(p: seq<Resource>, m: nat, t: seq<Resource>, n: nat): Running {
    map[PROMOTION := Txn(p, m), "transition" := Txn(t, n)]
  }

  /** Two plans that begin with the same two rows in opposite orders. */
  lemma BothBlocked(p: seq<Resource>, t: seq<Resource>, a: Resource, b: Resource)
    requires a != b && |p| >= 2 && |t| >= 2 && p[0] == a == t[1] && p[1] == b == t[0]
    ensures IsRun(Two(p, 0, t, 0), [PROMOTION, "transition"])
    ensures Stuck(Exec(Two(p, 0, t, 0), [PROMOTION, "transition"]))
  {
    assert p[..0] == [] && t[..0] == [] && p[..1] == [a] && t[..1] == [b];
    var w, once, twice := Two(p, 0, t, 0), Two(p, 1, t, 0), Two(p, 1, t, 1);
    assert CanProceed(w, PROMOTION) && Proceed(w, PROMOTION) == once;
    assert CanProceed(once, "transition") && Proceed(once, "transition") == twice;
    assert Holds(twice[PROMOTION], a) && Holds(twice["transition"], b);
    TwoSteps(w, PROMOTION, "transition");
  }

  lemma TwoSteps(w: Running, a: string, b: string)
    requires CanProceed(w, a) && CanProceed(Proceed(w, a), b)
    ensures IsRun(w, [a, b]) && Exec(w, [a, b]) == Proceed(Proceed(w, a), b)
  {
    var once := Proceed(w, a);
    assert [a, b][1..] == [b] && [b][1..] == [];
    assert IsRun(once, [b]) && Exec(once, [b]) == Proceed(once, b);
  }

  /** Exactly when a promotion is safe to run beside transitions: when the target it merges into has
      the higher id. */
  lemma PromotionIsSafeIffUpwards(current: string, existing: string, jobs: seq<string>)
    requires current != existing && NoDuplicates(jobs)
    ensures NeverStuck(current, existing, jobs) <==> Before(current, existing)
  {
    BeforeTotal(current, existing);
    if Before(current, existing) {
      forall hints: map<string, Hint>, steps: seq<string>
        | PROMOTION !in hints && IsRun(Start(current, existing, jobs, hints), steps)
        ensures !Stuck(Exec(Start(current, existing, jobs, hints), steps))
      {
        var w := Start(current, existing, jobs, hints);
        MixedStart(current, existing, jobs, hints);
        MixedRun(w, steps, current, existing, jobs);
        if Exec(w, steps) != map[] {
          MixedProgress(Exec(w, steps), current, existing, jobs);
        }
      }
    } else {
      DownwardsGetsStuck(current, existing, jobs);
    }
  }
}
