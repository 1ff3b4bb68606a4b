/** The resumable rollup backfill, interleaved with live writers:
    apps/worker/monitube_worker/rollup_backfill.py. */
module Backfill {
  import opened Common
  import opened Rollups

  datatype State = SchemaReady | DualWriteEnabled | BackfillRunning | Reconciling | Ready | Failed

  /** The durable row of maintenance_backfills; a failure remembers the phase it happened in. */
  datatype BackfillProgress = BackfillProgress(state: State, cursor: Option<string>, processed: nat, total: nat,
                                               lastError: Option<State>)

  /** One transaction of another session: a comment page, with or without dual write, or a new video. */
  datatype Event = Page(page: seq<Comment>, dualWrite: bool) | NewVideo(video: string)

  /** What happens around one of our own transactions. */
  datatype Turn = Turn(events: seq<Event>, lockTimeout: bool, stop: bool)

  datatype Config = Config(batchSize: nat, maxReconcilePasses: nat, dualWriteEnabled: bool)

  datatype Outcome = Completed | Stopped | DualWriteDisabled | NotConverged | MismatchBeforeReady

  function Happen(t: Tables, event: Event): Tables {
    match event
    case NewVideo(video) => t.(videos := t.videos + {video})
    case Page(page, dualWrite) =>
      match PersistPage(t, dualWrite, page, None, None)
      case Success(next) => next
      case Failure(_) => t
  }

  function HappenAll(t: Tables, events: seq<Event>): Tables {
    if events == [] then t else Happen(HappenAll(t, events[..|events| - 1]), events[|events| - 1])
  }

  predicate AtOrBefore(a: string, b: string) {
    a == b || Before(a, b)
  }

  /** Videos after the cursor; all of them when there is none. */
  function After(videos: set<string>, cursor: Option<string>): set<string> {
    set v | v in videos && (cursor.None? || Before(cursor.value, v))
  }

  lemma {:induction false} HasFirst(videos: set<string>)
    requires videos != {}
    ensures exists m :: m in videos && forall v :: v in videos ==> AtOrBefore(m, v)
  {
    var x :| x in videos;
    if videos != {x} {
      HasFirst(videos - {x});
      var m :| m in videos - {x} && forall v :: v in videos - {x} ==> AtOrBefore(m, v);
      BeforeTotal(x, m);
      var first := if Before(x, m) then x else m;
      forall v | v in videos ensures AtOrBefore(first, v) {
        if v != x {
          assert v in videos - {x} && AtOrBefore(m, v);
          if first == x && v != m {
            BeforeTransitive(x, m, v);
          }
        }
      }
    }
  }

  function First(videos: set<string>): (m: string)
    requires videos != {}
    ensures m in videos && forall v :: v in videos ==> AtOrBefore(m, v)
  {
    HasFirst(videos);
    FirstUnique(videos);
    assert forall a :: IsFirst(videos, a) <==> (a in videos && forall v :: v in videos ==> AtOrBefore(a, v));
    var m :| m in videos && forall v :: v in videos ==> AtOrBefore(m, v);
    m
  }

  ghost predicate IsFirst(videos: set<string>, m: string) {
    m in videos && forall v :: v in videos ==> AtOrBefore(m, v)
  }

  lemma FirstUnique(videos: set<string>)
    ensures forall a, b :: IsFirst(videos, a) && IsFirst(videos, b) ==> a == b
  {
    forall a, b ensures !(Before(a, b) && Before(b, a)) {
      BeforeTotal(a, b);
    }
  }

  /** ORDER BY id LIMIT n. */
  function Batch(videos: set<string>, n: nat): (batch: seq<string>)
    ensures forall v :: v in batch ==> v in videos
    ensures batch == [] <==> n == 0 || videos == {}
    decreases n
  {
    if n == 0 || videos == {} then []
    else
      var m := First(videos);
      [m] + Batch(videos - {m}, n - 1)
  }

  /** Everything a batch leaves out lies after its last video, so moving the cursor skips nothing. */
  lemma {:induction false} BatchSkipsNothing(videos: set<string>, n: nat)
    requires Batch(videos, n) != []
    ensures var batch := Batch(videos, n);
            var last := batch[|batch| - 1];
            && (forall v :: v in videos && v !in batch ==> Before(last, v))
            && (forall v :: v in batch ==> AtOrBefore(v, last))
    decreases n
  {
    var m := First(videos);
    var rest := Batch(videos - {m}, n - 1);
    if rest != [] {
      BatchSkipsNothing(videos - {m}, n - 1);
      assert Batch(videos, n) == [m] + rest;
      assert rest[|rest| - 1] in videos;
    } else {
      assert Batch(videos, n) == [m];
    }
  }

  /** The aggregate of every listed video, recomputed. */
  function Recount(t: Tables, batch: seq<string>): map<string, Rollup> {
    t.rollups + map v | v in Elements(batch) && v in t.videos :: Aggregate(t.comments, v)
  }

  ghost predicate AllCorrect(t: Tables) {
    forall v :: v in t.videos ==> Correct(t, v)
  }

  function Missing(t: Tables): set<string> {
    set v | v in t.videos && v !in t.rollups
  }

  function Mismatched(t: Tables): set<string> {
    set v | v in t.videos && v in t.rollups && t.rollups[v] != Aggregate(t.comments, v)
  }

  lemma CleanMeansCorrect(t: Tables)
    ensures |Missing(t)| == 0 && |Mismatched(t)| == 0 <==> AllCorrect(t)
  {
    if AllCorrect(t) {
      assert Missing(t) == {} && Mismatched(t) == {};
    } else {
      var v :| v in t.videos && !Correct(t, v);
      assert v in Missing(t) + Mismatched(t);
    }
  }

  // ---- reading: the rollup form equals the direct form -----------------------------

  ghost function Sum(videos: set<string>, f: string -> nat): nat {
    if videos == {} then 0
    else
      var v :| v in videos;
      f(v) + Sum(videos - {v}, f)
  }

  lemma {:induction false} SumStep(videos: set<string>, f: string -> nat, v: string)
    requires v in videos
    ensures Sum(videos, f) == f(v) + Sum(videos - {v}, f)
  {
    var w :| w in videos && Sum(videos, f) == f(w) + Sum(videos - {w}, f);
    if w != v {
      SumStep(videos - {w}, f, v);
      assert videos - {w} - {v} == videos - {v} - {w};
      SumStep(videos - {v}, f, w);
    }
  }

  /** COALESCE(sum(rollup.stored_count), 0) over a LEFT JOIN: a missing row counts as zero. */
  ghost function StoredCount(t: Tables): string -> nat {
    v => if v in t.rollups && t.rollups[v].stored >= 0 then t.rollups[v].stored else 0
  }

  ghost function LatestTimes(t: Tables, visible: set<string>): set<int> {
    set v | v in visible && v in t.rollups && t.rollups[v].latest.Some? :: t.rollups[v].latest.value
  }

  /** Comment ids counted by the direct form over the visible videos. */
  ghost function VisibleIds(t: Tables, visible: set<string>): set<string> {
    set id | id in t.comments && t.comments[id].comment.video in visible
  }

  ghost function VisibleTimes(t: Tables, visible: set<string>): set<int> {
    set id | id in t.comments && t.comments[id].comment.video in visible :: Effective(t.comments[id].comment)
  }

  /** Each visible video has a correct row, or no row and no comment. */
  ghost predicate Counted(t: Tables, v: string) {
    if v in t.rollups then Correct(t, v) else IdsOf(t.comments, v) == {}
  }

  /** Fast read equals slow read: over every set of visible videos the rollup form and the direct
      form give the same comment count and the same latest comment time. */
  lemma FastReadIsSlowRead(t: Tables, visible: set<string>)
    requires forall v :: v in visible ==> Counted(t, v)
    ensures Sum(visible, StoredCount(t)) == |VisibleIds(t, visible)|
    ensures MaxOf(LatestTimes(t, visible)) == MaxOf(VisibleTimes(t, visible))
  {
    FastCount(t, visible);
    FastLatest(t, visible);
  }

  lemma {:induction false} FastCount(t: Tables, visible: set<string>)
    requires forall v :: v in visible ==> Counted(t, v)
    ensures Sum(visible, StoredCount(t)) == |VisibleIds(t, visible)|
  {
    if visible == {} {
      assert VisibleIds(t, visible) == {};
    } else {
      var v :| v in visible;
      FastCount(t, visible - {v});
      SumStep(visible, StoredCount(t), v);
      OneVideoMore(t, visible, v);
    }
  }

  lemma {:induction false} FastLatest(t: Tables, visible: set<string>)
    requires forall v :: v in visible ==> Counted(t, v)
    ensures MaxOf(LatestTimes(t, visible)) == MaxOf(VisibleTimes(t, visible))
  {
    if visible == {} {
      assert VisibleTimes(t, visible) == {} && LatestTimes(t, visible) == {};
    } else {
      var v :| v in visible;
      var rest := visible - {v};
      FastLatest(t, rest);
      TimesOfOneMore(t, visible, v);
      LatestOfOneMore(t, visible, v);
      MaxOfUnion(VisibleTimes(t, rest), TimesOf(t.comments, v));
      MaxOfUnion(LatestTimes(t, rest), OwnTime(t, v));
      OwnTimeIsMax(t, v);
    }
  }

  ghost function OwnTime(t: Tables, v: string): set<int> {
    if v in t.rollups && t.rollups[v].latest.Some? then {t.rollups[v].latest.value} else {}
  }

  lemma TimesNeedIds(comments: map<string, Row>, v: string)
    ensures TimesOf(comments, v) == {} <==> IdsOf(comments, v) == {}
  {
    if id :| id in IdsOf(comments, v) {
      assert Effective(comments[id].comment) in TimesOf(comments, v);
    }
    if x :| x in TimesOf(comments, v) {
      var id :| id in comments && comments[id].comment.video == v && Effective(comments[id].comment) == x;
      assert id in IdsOf(comments, v);
    }
  }

  lemma OwnTimeIsMax(t: Tables, v: string)
    requires Counted(t, v)
    ensures MaxOf(OwnTime(t, v)) == MaxOf(TimesOf(t.comments, v))
  {
    if v in t.rollups {
      var latest := Aggregate(t.comments, v).latest;
      if latest.Some? {
        UniqueMax(OwnTime(t, v), latest.value);
      }
    } else {
      TimesNeedIds(t.comments, v);
    }
  }

  lemma LatestOfOneMore(t: Tables, visible: set<string>, v: string)
    requires v in visible
    ensures LatestTimes(t, visible) == LatestTimes(t, visible - {v}) + OwnTime(t, v)
  {
    forall x | x in LatestTimes(t, visible) ensures x in LatestTimes(t, visible - {v}) + OwnTime(t, v) {
      var w :| w in visible && w in t.rollups && t.rollups[w].latest.Some? && t.rollups[w].latest.value == x;
      assert w == v || w in visible - {v};
    }
  }

  lemma TimesOfOneMore(t: Tables, visible: set<string>, v: string)
    requires v in visible
    ensures VisibleTimes(t, visible) == VisibleTimes(t, visible - {v}) + TimesOf(t.comments, v)
  {
    forall x | x in VisibleTimes(t, visible) ensures x in VisibleTimes(t, visible - {v}) + TimesOf(t.comments, v) {
      var id :| id in t.comments && t.comments[id].comment.video in visible && Effective(t.comments[id].comment) == x;
      assert t.comments[id].comment.video == v || t.comments[id].comment.video in visible - {v};
    }
  }

  lemma OneVideoMore(t: Tables, visible: set<string>, v: string)
    requires v in visible && Counted(t, v)
    ensures |VisibleIds(t, visible)| == StoredCount(t)(v) + |VisibleIds(t, visible - {v})|
  {
    var rest := VisibleIds(t, visible - {v});
    assert VisibleIds(t, visible) == IdsOf(t.comments, v) + rest;
    assert IdsOf(t.comments, v) !! rest;
  }

  // ---- other sessions --------------------------------------------------------------

  /** Writers run with dual write on and never send an empty parent id. */
  ghost predicate DualWriter(event: Event) {
    event.Page? ==> event.dualWrite && ParentsGiven(event.page)
  }

  ghost predicate DualWriters(events: seq<Event>) {
    forall e :: 0 <= e < |events| ==> DualWriter(events[e])
  }

  ghost predicate NoNewVideos(events: seq<Event>) {
    forall e :: 0 <= e < |events| ==> events[e].Page?
  }

  lemma HappenKeys(t: Tables, event: Event)
    requires WellKeyed(t.comments)
    ensures WellKeyed(Happen(t, event).comments) && t.videos <= Happen(t, event).videos
    ensures event.Page? ==> Happen(t, event).videos == t.videos
  {
    if event.Page? && PersistPage(t, event.dualWrite, event.page, None, None).Success? {
      PersistPageShape(t, event.dualWrite, event.page, None, None);
      UpsertKeepsKeys(t.comments, CleanPage(event.page));
    }
  }

  lemma {:induction false} HappenAllKeys(t: Tables, events: seq<Event>)
    requires WellKeyed(t.comments)
    ensures WellKeyed(HappenAll(t, events).comments) && t.videos <= HappenAll(t, events).videos
    ensures NoNewVideos(events) ==> HappenAll(t, events).videos == t.videos
  {
    if events != [] {
      var n := |events| - 1;
      HappenAllKeys(t, events[..n]);
      HappenKeys(HappenAll(t, events[..n]), events[n]);
      assert NoNewVideos(events) ==> NoNewVideos(events[..n]);
    }
  }

  /** Dual writers never spoil a correct row. */
  lemma {:induction false} DualWritersKeepCorrect(t: Tables, events: seq<Event>, v: string)
    requires WellKeyed(t.comments) && Correct(t, v) && DualWriters(events)
    ensures Correct(HappenAll(t, events), v)
  {
    if events != [] {
      var n := |events| - 1;
      var before := HappenAll(t, events[..n]);
      HappenAllKeys(t, events[..n]);
      DualWritersKeepCorrect(t, events[..n], v);
      assert DualWriter(events[n]);
      if events[n].Page? && PersistPage(before, true, events[n].page, None, None).Success? {
        PageKeepsRow(before, events[n].page, None, None, v);
      }
    }
  }

  /** A video is counted from the start, and dual writers keep it so: its first page makes a
      correct row, and every later page keeps it correct. */
  lemma {:induction false} DualWritersKeepCounted(t: Tables, events: seq<Event>)
    requires WellKeyed(t.comments) && DualWriters(events)
    requires forall v :: Counted(t, v)
    ensures forall v :: Counted(HappenAll(t, events), v)
  {
    if events != [] {
      var n := |events| - 1;
      var before := HappenAll(t, events[..n]);
      HappenAllKeys(t, events[..n]);
      assert DualWriters(events[..n]);
      DualWritersKeepCounted(t, events[..n]);
      assert DualWriter(events[n]);
      forall v ensures Counted(Happen(before, events[n]), v) {
        assert Counted(before, v);
        if events[n].Page? && PersistPage(before, true, events[n].page, None, None).Success? {
          PageKeepsCounted(before, events[n].page, v);
        }
      }
    }
  }

  lemma PageKeepsCounted(t: Tables, page: seq<Comment>, v: string)
    requires WellKeyed(t.comments) && Counted(t, v) && ParentsGiven(page)
    requires PersistPage(t, true, page, None, None).Success?
    ensures Counted(PersistPage(t, true, page, None, None).value, v)
  {
    var items, next := CleanPage(page), PersistPage(t, true, page, None, None).value;
    PageKeepsRow(t, page, None, None, v);
    PageKeepsRollups(t, page, None, None, v);
    PersistPageShape(t, true, page, None, None);
    if v !in next.rollups && items != [] {
      OtherVideosUntouched(t.comments, items, items[0].video, v);
      assert |IdsOf(next.comments, v)| == Aggregate(next.comments, v).stored;
    }
  }

  /** Foreign keys: comments and rollup rows belong to known videos. */
  ghost predicate Referential(t: Tables) {
    && (forall id :: id in t.comments ==> t.comments[id].comment.video in t.videos)
    && (forall v :: v in t.rollups ==> v in t.videos)
  }

  lemma {:induction false} HappenAllReferential(t: Tables, events: seq<Event>)
    requires Referential(t)
    ensures Referential(HappenAll(t, events))
  {
    if events != [] {
      var n := |events| - 1;
      HappenAllReferential(t, events[..n]);
      HappenReferential(HappenAll(t, events[..n]), events[n]);
    }
  }

  lemma HappenReferential(t: Tables, event: Event)
    requires Referential(t)
    ensures Referential(Happen(t, event))
  {
    if event.Page? && PersistPage(t, event.dualWrite, event.page, None, None).Success? {
      PersistPageShape(t, event.dualWrite, event.page, None, None);
      UpsertReferential(t, CleanPage(event.page));
    }
  }

  lemma UpsertReferential(t: Tables, items: seq<Comment>)
    requires Referential(t) && DistinctIds(items) && forall c :: c in items ==> c.video in t.videos
    ensures forall id :: id in Upserted(t.comments, items) ==> Upserted(t.comments, items)[id].comment.video in t.videos
  {
    forall id | id in Upserted(t.comments, items) ensures Upserted(t.comments, items)[id].comment.video in t.videos {
      UpsertedAt(t.comments, items, id);
      if c :| c in items && c.id == id {
        assert Upserted(t.comments, items)[id].comment == c;
      }
    }
  }

  /** Once a backfill has completed, and for as long as writers dual-write, whatever they write
      and whichever videos are added, both read forms agree on every set of visible videos. */
  lemma ReadyReadsAgree(t: Tables, events: seq<Event>, visible: set<string>)
    requires WellKeyed(t.comments) && Referential(t) && AllCorrect(t) && DualWriters(events)
    ensures var now := HappenAll(t, events);
            && Sum(visible, StoredCount(now)) == |VisibleIds(now, visible)|
            && MaxOf(LatestTimes(now, visible)) == MaxOf(VisibleTimes(now, visible))
  {
    forall v ensures Counted(t, v) {
      if v !in t.videos {
        assert IdsOf(t.comments, v) == {};
      } else {
        assert Correct(t, v);
      }
    }
    DualWritersKeepCounted(t, events);
    FastReadIsSlowRead(HappenAll(t, events), visible);
  }

  // ---- the command -----------------------------------------------------------------

  /** Everything at or before the durable cursor has been recounted and is still correct. */
  ghost predicate SoundCursor(t: Tables, cursor: Option<string>) {
    cursor.Some? ==> forall v :: v in t.videos && AtOrBefore(v, cursor.value) ==> Correct(t, v)
  }

  ghost predicate Quiet(turn: Turn) {
    DualWriters(turn.events) && NoNewVideos(turn.events) && !turn.stop
  }

  /** The other sessions dual-write, add no video and ask for no stop. Row locks may still time out. */
  ghost predicate QuietTurns(turns: seq<Turn>) {
    forall k :: 0 <= k < |turns| ==> Quiet(turns[k])
  }

  lemma RecountStep(t: Tables, batch: seq<string>, i: nat)
    requires i < |batch|
    ensures Recount(t, batch[..i + 1]) ==
            if batch[i] in t.videos then Recount(t, batch[..i])[batch[i] := Aggregate(t.comments, batch[i])]
            else Recount(t, batch[..i])
  {
    var before, after := Recount(t, batch[..i]), Recount(t, batch[..i + 1]);
    var goal := if batch[i] in t.videos then before[batch[i] := Aggregate(t.comments, batch[i])] else before;
    forall v ensures Agree(after, goal, v) {
      RecountStepAt(t, batch, i, v);
    }
    AgreeEverywhere(after, goal);
  }

  ghost predicate Agree(a: map<string, Rollup>, b: map<string, Rollup>, v: string) {
    (v in a <==> v in b) && (v in a && v in b ==> a[v] == b[v])
  }

  lemma AgreeEverywhere(a: map<string, Rollup>, b: map<string, Rollup>)
    requires forall v :: Agree(a, b, v)
    ensures a == b
  {
    forall v ensures v in a <==> v in b {
      assert Agree(a, b, v);
    }
    forall v | v in a ensures a[v] == b[v] {
      assert Agree(a, b, v);
    }
  }

  lemma RecountStepAt(t: Tables, batch: seq<string>, i: nat, v: string)
    requires i < |batch|
    ensures var before, after := Recount(t, batch[..i]), Recount(t, batch[..i + 1]);
            && (v in after <==> v in before || (v == batch[i] && v in t.videos))
            && (v in after ==> (v == batch[i] && v in t.videos) || v in before)
            && (v in after ==> after[v] == if v == batch[i] && v in t.videos then Aggregate(t.comments, v) else before[v])
  {
    ElementsStep(batch, i);
    RecountAt(t, batch[..i], v);
    RecountAt(t, batch[..i + 1], v);
  }

  lemma RecountAt(t: Tables, batch: seq<string>, v: string)
    ensures var next := Recount(t, batch);
            if v in Elements(batch) && v in t.videos then v in next && next[v] == Aggregate(t.comments, v)
            else (v in next <==> v in t.rollups) && (v in next ==> next[v] == t.rollups[v])
  {
  }

  lemma ElementsStep(batch: seq<string>, i: nat)
    requires i < |batch|
    ensures Elements(batch[..i + 1]) == Elements(batch[..i]) + {batch[i]}
  {
    assert batch[..i + 1] == batch[..i] + [batch[i]];
  }

  lemma RecountIsCorrect(t: Tables, batch: seq<string>, v: string)
    ensures var next := t.(rollups := Recount(t, batch));
            && (v in batch && v in t.videos ==> Correct(next, v))
            && (Correct(t, v) ==> Correct(next, v))
            && (v !in batch ==> (Correct(next, v) <==> Correct(t, v)))
  {
  }

  lemma BatchAdvancesCursor(t: Tables, cursor: Option<string>, n: nat)
    requires SoundCursor(t, cursor) && Batch(After(t.videos, cursor), n) != []
    ensures var batch := Batch(After(t.videos, cursor), n);
            SoundCursor(t.(rollups := Recount(t, batch)), Some(batch[|batch| - 1]))
  {
    var batch := Batch(After(t.videos, cursor), n);
    var last := batch[|batch| - 1];
    BatchSkipsNothing(After(t.videos, cursor), n);
    forall v | v in t.videos && AtOrBefore(v, last) ensures Correct(t.(rollups := Recount(t, batch)), v) {
      RecountIsCorrect(t, batch, v);
      BeforeTotal(v, last);
      if v !in batch {
        assert v !in After(t.videos, cursor);
        BeforeTotal(v, cursor.value);
      }
    }
  }

  lemma RemainingShrinks(videos: set<string>, cursor: Option<string>, n: nat)
    requires Batch(After(videos, cursor), n) != []
    ensures var batch := Batch(After(videos, cursor), n);
            |After(videos, Some(batch[|batch| - 1]))| < |After(videos, cursor)|
  {
    var batch := Batch(After(videos, cursor), n);
    var last := batch[|batch| - 1];
    BeforeTotal(last, last);
    assert last in batch;
    assert last in After(videos, cursor);
    forall v | v in After(videos, Some(last)) ensures v in After(videos, cursor) {
      if cursor.Some? {
        BeforeTransitive(cursor.value, last, v);
      }
    }
    SubsetCardinality(After(videos, Some(last)), After(videos, cursor) - {last});
  }

  lemma EndOfPass(t: Tables, cursor: Option<string>)
    requires SoundCursor(t, cursor) && After(t.videos, cursor) == {}
    ensures AllCorrect(t)
  {
    forall v | v in t.videos ensures Correct(t, v) {
      assert v !in After(t.videos, cursor);
      BeforeTotal(v, cursor.value);
    }
  }

  class RollupBackfill {
    const config: Config
    var tables: Tables
    var progress: BackfillProgress
    var phase: State
    var turns: seq<Turn>  // what the other sessions do, one turn per transaction of ours

    constructor (config: Config, tables: Tables, progress: BackfillProgress, turns: seq<Turn>)
      requires WellKeyed(tables.comments) && Referential(tables) && config.batchSize > 0
      ensures this.config == config && this.tables == tables && this.progress == progress && this.turns == turns
      ensures Valid()
    {
      this.config, this.tables, this.progress, this.turns := config, tables, progress, turns;
      phase := SchemaReady;
    }

    ghost predicate Valid()
      reads this
    {
      WellKeyed(tables.comments) && Referential(tables) && config.batchSize > 0
    }

    /** Lets the other sessions run until our next transaction. */
    method Yield() returns (lockTimeout: bool, stop: bool)
      requires Valid()
      modifies this`tables, this`turns
      ensures Valid()
      ensures old(turns) == [] ==> !lockTimeout && !stop && turns == [] && tables == old(tables)
      ensures old(turns) != [] ==> turns == old(turns)[1..]
      ensures old(tables).videos <= tables.videos
      ensures QuietTurns(old(turns)) ==>
        && QuietTurns(turns) && !stop && tables.videos == old(tables).videos
        && forall v :: Correct(old(tables), v) ==> Correct(tables, v)
    {
      if turns == [] {
        return false, false;
      }
      var turn := turns[0];
      HappenAllKeys(tables, turn.events);
      HappenAllReferential(tables, turn.events);
      if QuietTurns(turns) {
        assert Quiet(turns[0]);
        forall v | Correct(tables, v) ensures Correct(HappenAll(tables, turn.events), v) {
          DualWritersKeepCorrect(tables, turn.events, v);
        }
      }
      tables, turns := HappenAll(tables, turn.events), turns[1..];
      lockTimeout, stop := turn.lockTimeout, turn.stop;
    }

    method SetState(state: State, resetCursor: bool)
      modifies this`progress
      ensures progress == BackfillProgress(state, if resetCursor then None else old(progress).cursor,
                                   if resetCursor then 0 else old(progress).processed, |tables.videos|, None)
    {
      progress := BackfillProgress(state, if resetCursor then None else progress.cursor,
                           if resetCursor then 0 else progress.processed, |tables.videos|, None);
    }

    /** One batch transaction: lock and recount each video, then advance the cursor. */
    method ApplyBatch(batch: seq<string>)
      requires Valid() && batch != []
      modifies this`tables, this`progress
      ensures Valid()
      ensures tables == old(tables).(rollups := Recount(old(tables), batch))
      ensures progress == old(progress).(cursor := Some(batch[|batch| - 1]),
                                         processed := old(progress).processed + |batch|, lastError := None)
    {
      var rollups := RecountBatch(batch);
      tables := tables.(rollups := rollups);
      progress := progress.(cursor := Some(batch[|batch| - 1]), processed := progress.processed + |batch|, lastError := None);
    }

    method RecountBatch(batch: seq<string>) returns (rollups: map<string, Rollup>)
      ensures rollups == Recount(tables, batch)
    {
      rollups := tables.rollups;
      assert rollups == Recount(tables, batch[..0]);
      for i := 0 to |batch|
        invariant rollups == Recount(tables, batch[..i])
      {
        RecountStep(tables, batch, i);
        if batch[i] in tables.videos {
          rollups := rollups[batch[i] := Aggregate(tables.comments, batch[i])];
        }
      }
      assert batch[..|batch|] == batch;
    }

    method RecordFailure(outcome: Outcome) returns (failed: Outcome)
      modifies this`progress
      ensures failed == outcome
      ensures progress == old(progress).(state := Failed, lastError := Some(phase))
    {
      progress := progress.(state := Failed, lastError := Some(phase));
      failed := outcome;
    }

    /** Takes a failed run back to the phase it failed in, keeping its cursor. */
    method ResumeFailed()
      requires progress.state == Failed
      modifies this`progress
      ensures progress.state in {SchemaReady, DualWriteEnabled, BackfillRunning, Reconciling}
      ensures progress.cursor == old(progress).cursor && progress.lastError == None
      ensures progress.processed == old(progress).processed
    {
      var previous := progress.lastError.GetOr(BackfillRunning);
      if previous != SchemaReady && previous != DualWriteEnabled && previous != Reconciling {
        previous := BackfillRunning;
      }
      SetState(previous, false);
    }

    /** UPDATE ... SET state = 'ready' WHERE state = 'reconciling' AND NOT EXISTS mismatch. */
    method MarkReady() returns (marked: bool)
      modifies this`progress
      ensures marked <==> old(progress).state == Reconciling && AllCorrect(tables)
      ensures marked ==> progress == BackfillProgress(Ready, None, |tables.videos|, |tables.videos|, None)
      ensures !marked ==> progress == old(progress)
    {
      CleanMeansCorrect(tables);
      marked := progress.state == Reconciling && |Missing(tables)| == 0 && |Mismatched(tables)| == 0;
      if marked {
        progress := BackfillProgress(Ready, None, |tables.videos|, |tables.videos|, None);
      }
    }

    /** Brings a run to one of its two working phases; or ends it early. */
    method Prepare() returns (early: Option<Outcome>)
      requires Valid()
      modifies this
      ensures Valid()
      ensures early.None? ==> config.dualWriteEnabled && progress.state in {BackfillRunning, Reconciling}
      ensures early.Some? ==> early.value in {Completed, DualWriteDisabled}
      ensures early == Some(Completed) ==> progress.state == Ready && AllCorrect(tables)
      ensures early == Some(DualWriteDisabled) ==> !config.dualWriteEnabled && progress.state == Failed
      ensures QuietTurns(old(turns)) && SoundCursor(old(tables), old(progress).cursor) ==>
        SoundCursor(tables, progress.cursor)
      ensures QuietTurns(old(turns)) ==> QuietTurns(turns)
    {
      var _, _ := Yield();
      phase := progress.state;
      if progress.state == Ready {
        CleanMeansCorrect(tables);
        if |Missing(tables)| == 0 && |Mismatched(tables)| == 0 {
          return Some(Completed);
        }
        if !config.dualWriteEnabled {
          var failed := RecordFailure(DualWriteDisabled);
          return Some(failed);
        }
        SetState(Reconciling, true);
      }
      if progress.state == Failed {
        ResumeFailed();
      }
      if !config.dualWriteEnabled {
        var failed := RecordFailure(DualWriteDisabled);
        return Some(failed);
      }
      if progress.state == SchemaReady {
        SetState(DualWriteEnabled, false);
      }
      if progress.state == DualWriteEnabled {
        SetState(BackfillRunning, true);
      }
      early := None;
    }

    /** The backfill command. Whatever the other sessions do, a run that completes leaves every
        video's rollup equal to its recount. When they dual-write and add no video, the run
        completes, provided it may reconcile twice or starts from a sound cursor. */
    method Run() returns (outcome: Outcome)
      requires Valid()
      modifies this
      ensures Valid()
      ensures outcome == Completed ==> progress.state == Ready && AllCorrect(tables)
      ensures outcome == Stopped ==> progress.state in {BackfillRunning, Reconciling}
      ensures outcome in {DualWriteDisabled, NotConverged, MismatchBeforeReady} ==> progress.state == Failed
      ensures QuietTurns(old(turns)) && config.dualWriteEnabled
              && (config.maxReconcilePasses >= 2 || SoundCursor(old(tables), old(progress).cursor))
              ==> outcome == Completed
      ensures QuietTurns(old(turns)) && SoundCursor(old(tables), old(progress).cursor) ==>
        SoundCursor(tables, progress.cursor)
    {
      ghost var quiet := QuietTurns(turns);
      var early := Prepare();
      if early.Some? {
        return early.value;
      }
      ghost var sound := quiet && SoundCursor(tables, progress.cursor);
      var pass: nat := 1;
      while true
        invariant Working(pass, quiet, sound)
        invariant quiet && SoundCursor(old(tables), old(progress).cursor) ==> sound
        decreases |turns|, config.maxReconcilePasses - pass,
                  if progress.state == BackfillRunning then 1 else 0, |After(tables.videos, progress.cursor)|
      {
        var ended: Option<Outcome>;
        ended, pass, sound := TakeTurn(pass, quiet, sound);
        if ended.Some? {
          return ended.value;
        }
      }
    }

    /** Between two turns. While the others are quiet, the cursor is sound from the second pass on. */
    ghost predicate Working(pass: nat, quiet: bool, sound: bool)
      reads this
    {
      && Valid() && config.dualWriteEnabled && pass >= 1
      && progress.state in {BackfillRunning, Reconciling}
      && (quiet ==> QuietTurns(turns))
      && (sound ==> quiet && SoundCursor(tables, progress.cursor))
      && (quiet && progress.state == Reconciling && !sound ==> pass == 1)
    }

    /** One turn of the loop: a batch, the end of the first phase, or the end of a reconcile pass. */
    method TakeTurn(pass: nat, ghost quiet: bool, ghost sound: bool)
        returns (ended: Option<Outcome>, next: nat, ghost stillSound: bool)
      requires Working(pass, quiet, sound)
      modifies this`tables, this`progress, this`turns, this`phase
      ensures Valid()
      ensures ended.None? ==> Working(next, quiet, stillSound) && (sound ==> stillSound)
      ensures ended.None? ==>
                || |turns| < |old(turns)|
                || (|turns| == |old(turns)| && pass < next && pass < config.maxReconcilePasses)
                || (|turns| == |old(turns)| && next == pass && old(progress).state == BackfillRunning
                  && progress.state == Reconciling)
                || (|turns| == |old(turns)| && next == pass && old(progress).state == progress.state
                    && |After(tables.videos, progress.cursor)| < |After(old(tables).videos, old(progress).cursor)|)
      ensures ended == Some(Completed) ==> progress.state == Ready && AllCorrect(tables)
      ensures ended == Some(Stopped) ==> progress.state in {BackfillRunning, Reconciling} && !quiet
      ensures ended.Some? ==> ended.value in {Completed, Stopped, NotConverged, MismatchBeforeReady}
      ensures ended.Some? && ended.value in {NotConverged, MismatchBeforeReady} ==> progress.state == Failed
      ensures quiet && ended.Some? && (sound || config.maxReconcilePasses >= 2) ==> ended == Some(Completed)
      ensures ended.Some? && sound ==> SoundCursor(tables, progress.cursor)
    {
      ended, next, stillSound := None, pass, sound;
      var _, stop := Yield();
      if stop {
        return Some(Stopped), pass, sound;
      }
      phase := progress.state;
      var batch := Batch(After(tables.videos, progress.cursor), config.batchSize);
      if batch != [] {
        stop := TakeBatch(batch, quiet, sound);
        ended := if stop then Some(Stopped) else None;
      } else if progress.state == BackfillRunning {
        SetState(Reconciling, true);
        stillSound := quiet;
      } else {
        if sound {
          EndOfPass(tables, progress.cursor);
        }
        ended := FinishPass(pass, sound);
        next := pass + 1;
        stillSound := quiet;
      }
    }

    /** Applies a batch in its own transaction, after the one that fetched it; a lock timeout rolls it
        back, cursor included. A stop asked for meanwhile ends the run after the batch. */
    method TakeBatch(batch: seq<string>, ghost quiet: bool, ghost sound: bool) returns (stop: bool)
      requires Valid() && batch != [] && batch == Batch(After(tables.videos, progress.cursor), config.batchSize)
      requires quiet ==> QuietTurns(turns)
      requires sound ==> quiet && SoundCursor(tables, progress.cursor)
      modifies this`tables, this`progress, this`turns
      ensures Valid() && progress.state == old(progress).state
      ensures progress == old(progress)
              || progress == old(progress).(cursor := Some(batch[|batch| - 1]),
                                            processed := old(progress).processed + |batch|, lastError := None)
      ensures quiet ==> QuietTurns(turns) && !stop
      ensures sound ==> SoundCursor(tables, progress.cursor)
      ensures || |turns| < |old(turns)|
              || (|turns| == |old(turns)|
                  && |After(tables.videos, progress.cursor)| < |After(old(tables).videos, old(progress).cursor)|)
    {
      ghost var fetched := tables;
      var lockTimeout: bool;
      lockTimeout, stop := Yield();
      if !lockTimeout {
        if tables.videos == fetched.videos {
          RemainingShrinks(tables.videos, progress.cursor, config.batchSize);
        }
        if sound {
          BatchAdvancesCursor(tables, progress.cursor, config.batchSize);
        }
        ApplyBatch(batch);
      }
    }

    /** The end of a reconcile pass: count what is wrong in a transaction of its own, then mark the run
        ready, give up, or start another pass. */
    method FinishPass(pass: nat, ghost quietlySound: bool) returns (ended: Option<Outcome>)
      requires Valid() && progress.state == Reconciling
      requires quietlySound ==> QuietTurns(turns) && AllCorrect(tables)
      modifies this`tables, this`progress, this`turns
      ensures Valid()
      ensures ended.Some? ==> ended.value in {Completed, NotConverged, MismatchBeforeReady}
      ensures ended == Some(Completed) ==> progress.state == Ready && AllCorrect(tables) && progress.cursor.None?
      ensures ended.Some? && ended != Some(Completed) ==> progress.state == Failed
      ensures ended == Some(NotConverged) ==> pass >= config.maxReconcilePasses && !quietlySound
      ensures ended == Some(MismatchBeforeReady) ==> !QuietTurns(old(turns))
      ensures ended.None? ==>
        && pass < config.maxReconcilePasses && !quietlySound
        && (|turns| < |old(turns)| || (turns == old(turns) && tables == old(tables)))
        && progress.state == Reconciling && progress.cursor.None?
      ensures ended.Some? && ended != Some(Completed) ==> progress.cursor == old(progress).cursor
      ensures QuietTurns(old(turns)) ==> QuietTurns(turns)
    {
      var _, _ := Yield();
      CleanMeansCorrect(tables);
      if |Missing(tables)| == 0 && |Mismatched(tables)| == 0 {
        var _, _ := Yield();
        var marked := MarkReady();
        if marked {
          return Some(Completed);
        }
        var failed := RecordFailure(MismatchBeforeReady);
        return Some(failed);
      }
      if pass >= config.maxReconcilePasses {
        var failed := RecordFailure(NotConverged);
        return Some(failed);
      }
      SetState(Reconciling, true);
      ended := None;
    }
  }
}
