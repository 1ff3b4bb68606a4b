/** Comment pages and the per-video counters derived from them:
    apps/api/monitube_api/infrastructure/postgres_writes.py:198-477. */
module Rollups {
  import opened Common
  import opened Checkpoints

  /** A comment as the collector hands it over. Times are abstract instants. */
  datatype Comment = Comment(id: string, video: string, parent: Option<string>,
                             published: Option<int>, fetchedAt: int, text: string, likes: int)

  /** A stored comment; parentRow is the resolved parent foreign key. */
  datatype Row = Row(comment: Comment, parentRow: Option<string>)

  datatype Rollup = Rollup(stored: int, topLevel: int, replies: int, latest: Option<int>)

  datatype Tables = Tables(videos: set<string>, comments: map<string, Row>,
                           rollups: map<string, Rollup>, runningJobs: map<string, Checkpoint>)

  datatype PageError = MixedVideos | MissingJob | VideoNotFound | CommentMoved | JobNotRunning

  function Effective(c: Comment): int {
    c.published.GetOr(c.fetchedAt)
  }

  /** The SQL reading: a top-level comment has no parent value at all. */
  predicate IsTopLevel(c: Comment) {
    c.parent.None?
  }

  /** The collector's reading: an empty parent counts as no parent. */
  predicate LooksTopLevel(c: Comment) {
    c.parent.None? || c.parent.value == ""
  }

  // ---- the simple form: counting stored rows ---------------------------------------

  function IdsOf(comments: map<string, Row>, video: string): set<string> {
    set id | id in comments && comments[id].comment.video == video
  }

  function TopIdsOf(comments: map<string, Row>, video: string): set<string> {
    set id | id in comments && comments[id].comment.video == video && IsTopLevel(comments[id].comment)
  }

  function TimesOf(comments: map<string, Row>, video: string): set<int> {
    set id | id in comments && comments[id].comment.video == video :: Effective(comments[id].comment)
  }

  /** The greatest element, or nothing for the empty set. */
  function MaxOf(times: set<int>): (m: Option<int>)
    ensures m.None? <==> times == {}
    ensures m.Some? ==> m.value in times && forall t :: t in times ==> t <= m.value
  {
    if times == {} then None
    else
      HasMaximum(times);
      var m :| m in times && forall t :: t in times ==> t <= m;
      Some(m)
  }

  lemma EmptyOrInhabited(times: set<int>)
    ensures times == {} || exists t :: t in times
  {
    if forall t :: t !in times {
      assert times == {};
    }
  }

  lemma {:induction false} HasMaximum(times: set<int>)
    requires times != {}
    ensures exists m :: m in times && forall t :: t in times ==> t <= m
  {
    EmptyOrInhabited(times);
    var x :| x in times;
    if times != {x} {
      HasMaximum(times - {x});
      var m :| m in times - {x} && forall t :: t in times - {x} ==> t <= m;
      assert forall t :: t in times ==> t == x || t in times - {x};
      var greatest := if x > m then x else m;
      assert greatest in times && forall t :: t in times ==> t <= greatest;
    }
  }

  /** Counts and latest time of one video, straight from its rows. */
  function Aggregate(comments: map<string, Row>, video: string): Rollup {
    RollupOf(IdsOf(comments, video), TopIdsOf(comments, video), TimesOf(comments, video))
  }

  function RollupOf(ids: set<string>, tops: set<string>, times: set<int>): Rollup {
    Rollup(|ids|, |tops|, |ids - tops|, MaxOf(times))
  }

  // ---- one page as the writer sees it ----------------------------------------------

  function StripNul(s: string): string {
    if s == "" then "" else (if s[0] == '\0' then "" else [s[0]]) + StripNul(s[1..])
  }

  function Sanitize(c: Comment): Comment {
    Comment(StripNul(c.id), StripNul(c.video),
            match c.parent case None => None case Some(p) => Some(StripNul(p)),
            c.published, c.fetchedAt, StripNul(c.text), c.likes)
  }

  function IndexOf(items: seq<Comment>, id: string): (k: Option<nat>)
    ensures k.None? ==> forall j :: 0 <= j < |items| ==> items[j].id != id
    ensures k.Some? ==> k.value < |items| && items[k.value].id == id
  {
    if items == [] then None
    else if items[|items| - 1].id == id then Some(|items| - 1)
    else IndexOf(items[..|items| - 1], id)
  }

  function Put(items: seq<Comment>, c: Comment): seq<Comment> {
    match IndexOf(items, c.id)
    case None => items + [c]
    case Some(k) => items[k := c]
  }

  /** One entry per id, in order of first appearance, holding the last value seen. */
  function Deduplicate(page: seq<Comment>): seq<Comment> {
    if page == [] then [] else Put(Deduplicate(page[..|page| - 1]), page[|page| - 1])
  }

  function CleanPage(page: seq<Comment>): seq<Comment> {
    Deduplicate(seq(|page|, i requires 0 <= i < |page| => Sanitize(page[i])))
  }

  ghost predicate DistinctIds(items: seq<Comment>) {
    forall i, j :: 0 <= i < j < |items| ==> items[i].id != items[j].id
  }

  lemma PutKeepsDistinct(items: seq<Comment>, c: Comment)
    requires DistinctIds(items)
    ensures DistinctIds(Put(items, c))
  {
  }

  lemma PutHolds(items: seq<Comment>, c: Comment, x: Comment)
    requires x == c || (x in items && x.id != c.id)
    ensures x in Put(items, c)
  {
    var k := IndexOf(items, c.id);
    var after := Put(items, c);
    if x == c {
      assert after[if k.Some? then k.value else |items|] == c;
    } else {
      var i :| 0 <= i < |items| && items[i] == x;
      assert after[i] == x;
    }
  }

  lemma PutOnly(items: seq<Comment>, c: Comment, x: Comment)
    requires x in Put(items, c)
    ensures x == c || x in items
  {
  }

  lemma {:induction false} DeduplicateDistinct(page: seq<Comment>)
    ensures DistinctIds(Deduplicate(page))
    ensures forall c :: c in Deduplicate(page) ==> c in page
  {
    if page != [] {
      var n := |page| - 1;
      DeduplicateDistinct(page[..n]);
      PutKeepsDistinct(Deduplicate(page[..n]), page[n]);
      forall c | c in Deduplicate(page) ensures c in page {
        PutOnly(Deduplicate(page[..n]), page[n], c);
        assert page == page[..n] + [page[n]];
      }
    }
  }

  /** The kept value of an id is the last one on the page. */
  lemma {:induction false} LastValueWins(page: seq<Comment>, k: nat)
    requires k < |page| && forall j :: k < j < |page| ==> page[j].id != page[k].id
    ensures page[k] in Deduplicate(page)
  {
    var n := |page| - 1;
    if k < n {
      LastValueWins(page[..n], k);
    }
    PutHolds(Deduplicate(page[..n]), page[n], page[k]);
  }

  function VideosOn(items: seq<Comment>): set<string> {
    set c | c in items :: c.video
  }

  predicate Moves(comments: map<string, Row>, c: Comment) {
    c.id in comments && comments[c.id].comment.video != c.video
  }

  /** A stored comment whose category or effective time the page changes. */
  predicate NeedsAbsolute(comments: map<string, Row>, c: Comment) {
    && c.id in comments
    && (comments[c.id].comment.parent != c.parent || Effective(comments[c.id].comment) != Effective(c))
  }

  function NewComments(comments: map<string, Row>, items: seq<Comment>): seq<Comment> {
    if items == [] then []
    else
      var n := |items| - 1;
      NewComments(comments, items[..n]) + if items[n].id in comments then [] else [items[n]]
  }

  function CountTopLevel(items: seq<Comment>): nat {
    if items == [] then 0
    else CountTopLevel(items[..|items| - 1]) + if LooksTopLevel(items[|items| - 1]) then 1 else 0
  }

  function LatestOf(items: seq<Comment>): Option<int> {
    if items == [] then None
    else Later(LatestOf(items[..|items| - 1]), Some(Effective(items[|items| - 1])))
  }

  /** GREATEST over optional times. */
  function Later(a: Option<int>, b: Option<int>): Option<int> {
    match (a, b)
    case (None, _) => b
    case (_, None) => a
    case (Some(x), Some(y)) => Some(Max(x, y))
  }

  function Delta(rollup: Rollup, added: seq<Comment>): Rollup {
    var tops := CountTopLevel(added);
    Rollup(rollup.stored + |added|, rollup.topLevel + tops, rollup.replies + |added| - tops,
           Later(rollup.latest, LatestOf(added)))
  }

  /** A reply's parent key resolves to a comment stored before, or to a top-level one on its page. */
  function Resolve(comments: map<string, Row>, items: seq<Comment>, c: Comment): Option<string> {
    if LooksTopLevel(c) then None
    else if c.parent.value in comments
            || exists t | t in items :: LooksTopLevel(t) && t.id == c.parent.value
    then c.parent else None
  }

  function ItemAt(items: seq<Comment>, id: string): Comment
    requires exists c | c in items :: c.id == id
  {
    var k := IndexOf(items, id);
    items[k.value]
  }

  function Upserted(comments: map<string, Row>, items: seq<Comment>): map<string, Row> {
    comments + map id | id in (set c | c in items :: c.id) ::
                 Row(ItemAt(items, id), Resolve(comments, items, ItemAt(items, id)))
  }

  function NextRollups(t: Tables, dualWrite: bool, items: seq<Comment>, video: string): map<string, Rollup> {
    if !dualWrite then t.rollups
    else ChooseRollup(t.rollups, video, SomeNeedAbsolute(t.comments, items), NewComments(t.comments, items),
                      Aggregate(Upserted(t.comments, items), video))
  }

  predicate SomeNeedAbsolute(comments: map<string, Row>, items: seq<Comment>) {
    exists c | c in items :: NeedsAbsolute(comments, c)
  }

  /** The recount where the page changed something already counted or nothing was counted yet;
      otherwise the old row plus what the page added. */
  function ChooseRollup(rollups: map<string, Rollup>, video: string, absolute: bool, added: seq<Comment>, recount: Rollup)
    : map<string, Rollup>
  {
    if absolute || video !in rollups then rollups[video := recount]
    else if added != [] then rollups[video := Delta(rollups[video], added)]
    else rollups
  }

  function PageErrorOf(t: Tables, items: seq<Comment>, job: Option<string>, checkpoint: Option<Checkpoint>): Option<PageError> {
    if |VideosOn(items)| > 1 then Some(MixedVideos)
    else if checkpoint.Some? && (job.None? || job.value == "") then Some(MissingJob)
    else if exists c | c in items :: c.video !in t.videos then Some(VideoNotFound)
    else if exists c | c in items :: Moves(t.comments, c) then Some(CommentMoved)
    else if checkpoint.Some? && job.value !in t.runningJobs then Some(JobNotRunning)
    else None
  }

  /** One transaction: the page, its rollup and its checkpoint commit together or not at all. */
  function PersistPage(t: Tables, dualWrite: bool, page: seq<Comment>,
                       job: Option<string>, checkpoint: Option<Checkpoint>): Result<Tables, PageError> {
    var items := CleanPage(page);
    var error := PageErrorOf(t, items, job, checkpoint);
    if error.Some? then Failure(error.value)
    else
      Success(Tables(t.videos, Upserted(t.comments, items),
                     if items == [] then t.rollups else NextRollups(t, dualWrite, items, items[0].video),
                     if checkpoint.None? then t.runningJobs else t.runningJobs[job.value := checkpoint.value]))
  }

  // ---- refinement: the incremental rollup is the simple count ----------------------

  ghost predicate WellKeyed(comments: map<string, Row>) {
    forall id :: id in comments ==> comments[id].comment.id == id
  }

  ghost predicate Correct(t: Tables, video: string) {
    video in t.rollups && t.rollups[video] == Aggregate(t.comments, video)
  }

  /** The video's rollup row is absent or correct. */
  ghost predicate RowOk(t: Tables, video: string) {
    video in t.rollups ==> t.rollups[video] == Aggregate(t.comments, video)
  }

  ghost predicate CorrectOrAbsent(t: Tables) {
    forall video :: RowOk(t, video)
  }

  ghost predicate OneVideo(items: seq<Comment>, video: string) {
    forall c :: c in items ==> c.video == video
  }

  /** No stored comment changes its video, category or effective time. */
  ghost predicate PlainPage(comments: map<string, Row>, items: seq<Comment>) {
    forall c :: c in items ==> !Moves(comments, c) && !NeedsAbsolute(comments, c)
  }

  lemma ItemAtIs(items: seq<Comment>, c: Comment)
    requires DistinctIds(items) && c in items
    ensures ItemAt(items, c.id) == c
  {
    var k := IndexOf(items, c.id);
    var j :| 0 <= j < |items| && items[j] == c;
    assert k.value == j;
  }

  lemma UpsertedAt(comments: map<string, Row>, items: seq<Comment>, id: string)
    requires DistinctIds(items)
    ensures id in Upserted(comments, items) <==> id in comments || exists c :: c in items && c.id == id
    ensures forall c :: c in items ==> Upserted(comments, items)[c.id] == Row(c, Resolve(comments, items, c))
    ensures id in comments && (forall c :: c in items ==> c.id != id) ==> Upserted(comments, items)[id] == comments[id]
  {
    forall c | c in items ensures Upserted(comments, items)[c.id] == Row(c, Resolve(comments, items, c)) {
      ItemAtIs(items, c);
    }
  }

  lemma MaxOfUnion(a: set<int>, b: set<int>)
    ensures MaxOf(a + b) == Later(MaxOf(a), MaxOf(b))
  {
    if a == {} {
      assert a + b == b;
    } else if b == {} {
      assert a + b == a;
    }
  }

  lemma UniqueMax(times: set<int>, m: int)
    requires m in times && forall t :: t in times ==> t <= m
    ensures MaxOf(times) == Some(m)
  {
  }

  ghost predicate HasEmptyParent(items: seq<Comment>) {
    exists c :: c in items && c.parent == Some("")
  }

  function EmptyParents(items: seq<Comment>): nat {
    if items == [] then 0
    else EmptyParents(items[..|items| - 1]) + if items[|items| - 1].parent == Some("") then 1 else 0
  }

  lemma {:induction false} NoEmptyParents(items: seq<Comment>)
    ensures EmptyParents(items) == 0 <==> !HasEmptyParent(items)
  {
    if items != [] {
      var n := |items| - 1;
      NoEmptyParents(items[..n]);
      assert items == items[..n] + [items[n]];
    }
  }

  function IdSet(items: seq<Comment>): set<string> {
    set c | c in items :: c.id
  }

  function TopIdSet(items: seq<Comment>): set<string> {
    set c | c in items && IsTopLevel(c) :: c.id
  }

  function TimeSet(items: seq<Comment>): set<int> {
    set c | c in items :: Effective(c)
  }

  lemma {:induction false} IdCount(items: seq<Comment>)
    requires DistinctIds(items)
    ensures |IdSet(items)| == |items|
  {
    if items != [] {
      var n := |items| - 1;
      var init, last := items[..n], items[n];
      IdCount(init);
      assert last.id !in IdSet(init);
      assert IdSet(items) == IdSet(init) + {last.id} by {
        assert items == init + [last];
      }
    }
  }

  lemma TopIdsOfOneMore(init: seq<Comment>, last: Comment)
    requires DistinctIds(init + [last])
    ensures TopIdSet(init + [last]) == if IsTopLevel(last) then TopIdSet(init) + {last.id} else TopIdSet(init)
    ensures last.id !in TopIdSet(init)
  {
    var items := init + [last];
    forall id ensures id in TopIdSet(items) <==> id in TopIdSet(init) || (IsTopLevel(last) && id == last.id) {
    }
    forall c | c in init ensures c.id != last.id {
      var i :| 0 <= i < |init| && init[i] == c;
      assert items[i] == c && items[|init|] == last;
    }
  }

  lemma {:induction false} TopCount(items: seq<Comment>)
    requires DistinctIds(items)
    ensures |TopIdSet(items)| + EmptyParents(items) == CountTopLevel(items)
  {
    if items != [] {
      var n := |items| - 1;
      TopCount(items[..n]);
      assert items == items[..n] + [items[n]];
      TopIdsOfOneMore(items[..n], items[n]);
    }
  }

  lemma {:induction false} LatestIsMax(items: seq<Comment>)
    ensures LatestOf(items) == MaxOf(TimeSet(items))
  {
    if items != [] {
      var n := |items| - 1;
      var init, last := items[..n], items[n];
      LatestIsMax(init);
      assert TimeSet(items) == TimeSet(init) + {Effective(last)} by {
        assert items == init + [last];
      }
      UniqueMax({Effective(last)}, Effective(last));
      MaxOfUnion(TimeSet(init), {Effective(last)});
    }
  }

  lemma {:induction false} NewCommentsAre(comments: map<string, Row>, items: seq<Comment>)
    requires DistinctIds(items)
    ensures DistinctIds(NewComments(comments, items))
    ensures forall c :: c in NewComments(comments, items) <==> c in items && c.id !in comments
  {
    if items != [] {
      var n := |items| - 1;
      NewCommentsAre(comments, items[..n]);
      assert items == items[..n] + [items[n]];
    }
  }

  /** What happened to one id: untouched, rewritten with the same video, category and time, or added. */
  ghost predicate RowGrowth(comments: map<string, Row>, items: seq<Comment>, id: string) {
    var after, added := Upserted(comments, items), NewComments(comments, items);
    if id in comments then
      && id in after && after[id].comment.video == comments[id].comment.video
      && after[id].comment.parent == comments[id].comment.parent
      && Effective(after[id].comment) == Effective(comments[id].comment)
      && id !in IdSet(added)
    else
      && (id in after <==> id in IdSet(added))
      && (id in after ==> after[id].comment in added && after[id].comment.id == id)
  }

  lemma GrowthAt(comments: map<string, Row>, items: seq<Comment>, video: string, id: string)
    requires WellKeyed(comments) && DistinctIds(items) && OneVideo(items, video) && PlainPage(comments, items)
    ensures RowGrowth(comments, items, id)
  {
    UpsertedAt(comments, items, id);
    NewCommentsAre(comments, items);
    if c :| c in items && c.id == id {
      assert Upserted(comments, items)[id].comment == c;
    }
  }

  lemma GrowthOfTimes(comments: map<string, Row>, items: seq<Comment>, video: string)
    requires WellKeyed(comments) && DistinctIds(items) && OneVideo(items, video) && PlainPage(comments, items)
    ensures TimesOf(Upserted(comments, items), video) ==
            TimesOf(comments, video) + TimeSet(NewComments(comments, items))
  {
    var after, added := Upserted(comments, items), NewComments(comments, items);
    NewCommentsAre(comments, items);
    forall t | t in TimesOf(after, video) ensures t in TimesOf(comments, video) + TimeSet(added) {
      var id :| id in after && after[id].comment.video == video && Effective(after[id].comment) == t;
      GrowthAt(comments, items, video, id);
    }
    forall t | t in TimesOf(comments, video) ensures t in TimesOf(after, video) {
      var id :| id in comments && comments[id].comment.video == video && Effective(comments[id].comment) == t;
      GrowthAt(comments, items, video, id);
    }
    forall t | t in TimeSet(added) ensures t in TimesOf(after, video) {
      var c :| c in added && Effective(c) == t;
      GrowthAt(comments, items, video, c.id);
      UpsertedAt(comments, items, c.id);
      assert after[c.id].comment == c;
    }
  }

  /** A plain page adds its new comments to its video and disturbs no counted row. */
  lemma GrowthOfIds(comments: map<string, Row>, items: seq<Comment>, video: string)
    requires WellKeyed(comments) && DistinctIds(items) && OneVideo(items, video) && PlainPage(comments, items)
    ensures var after, added := Upserted(comments, items), NewComments(comments, items);
            && IdsOf(after, video) == IdsOf(comments, video) + IdSet(added)
            && IdsOf(comments, video) !! IdSet(added)
  {
    var after, added := Upserted(comments, items), NewComments(comments, items);
    NewCommentsAre(comments, items);
    forall id ensures id in IdsOf(after, video) <==> id in IdsOf(comments, video) + IdSet(added) {
      GrowthAt(comments, items, video, id);
    }
    forall id | id in IdSet(added) ensures id !in comments {
      GrowthAt(comments, items, video, id);
    }
  }

  lemma GrowthOfTops(comments: map<string, Row>, items: seq<Comment>, video: string)
    requires WellKeyed(comments) && DistinctIds(items) && OneVideo(items, video) && PlainPage(comments, items)
    ensures TopIdsOf(Upserted(comments, items), video) ==
            TopIdsOf(comments, video) + TopIdSet(NewComments(comments, items))
  {
    var after, added := Upserted(comments, items), NewComments(comments, items);
    NewCommentsAre(comments, items);
    forall id ensures id in TopIdsOf(after, video) <==> id in TopIdsOf(comments, video) + TopIdSet(added) {
      GrowthAt(comments, items, video, id);
      if id in TopIdSet(added) {
        var c :| c in added && IsTopLevel(c) && c.id == id;
        UpsertedAt(comments, items, id);
        assert after[id].comment == c;
      }
    }
  }

  lemma RollupOfUnion(ids: set<string>, tops: set<string>, times: set<int>,
                      moreIds: set<string>, moreTops: set<string>, moreTimes: set<int>)
    requires tops <= ids && moreTops <= moreIds && ids !! moreIds
    ensures var before := RollupOf(ids, tops, times);
            RollupOf(ids + moreIds, tops + moreTops, times + moreTimes) ==
            Rollup(before.stored + |moreIds|, before.topLevel + |moreTops|,
                   before.replies + |moreIds| - |moreTops|, Later(before.latest, MaxOf(moreTimes)))
  {
    Difference(ids, tops);
    Difference(ids + moreIds, tops + moreTops);
    assert tops !! moreTops;
    MaxOfUnion(times, moreTimes);
  }

  lemma TopsAreIds(comments: map<string, Row>, video: string, items: seq<Comment>)
    ensures TopIdsOf(comments, video) <= IdsOf(comments, video)
    ensures TopIdSet(items) <= IdSet(items)
  {
  }

  /** The full recount after a plain page, in terms of what the page added. */
  lemma RecountAfterPage(comments: map<string, Row>, items: seq<Comment>, video: string)
    requires WellKeyed(comments) && DistinctIds(items) && OneVideo(items, video) && PlainPage(comments, items)
    ensures var before, added := Aggregate(comments, video), NewComments(comments, items);
            Aggregate(Upserted(comments, items), video) ==
            Rollup(before.stored + |IdSet(added)|, before.topLevel + |TopIdSet(added)|,
                   before.replies + |IdSet(added)| - |TopIdSet(added)|,
                   Later(before.latest, MaxOf(TimeSet(added))))
  {
    var added := NewComments(comments, items);
    GrowthOfIds(comments, items, video);
    GrowthOfTops(comments, items, video);
    GrowthOfTimes(comments, items, video);
    TopsAreIds(comments, video, added);
    RollupOfUnion(IdsOf(comments, video), TopIdsOf(comments, video), TimesOf(comments, video),
                  IdSet(added), TopIdSet(added), TimeSet(added));
  }

  /** The delta of a plain page equals the full recount exactly when no added comment carries an
      empty parent id. */
  lemma DeltaIsRecount(comments: map<string, Row>, items: seq<Comment>, video: string)
    requires WellKeyed(comments) && DistinctIds(items) && OneVideo(items, video) && PlainPage(comments, items)
    ensures var added := NewComments(comments, items);
            Delta(Aggregate(comments, video), added) == Aggregate(Upserted(comments, items), video)
            <==> !HasEmptyParent(added)
  {
    var added := NewComments(comments, items);
    RecountAfterPage(comments, items, video);
    NewCommentsAre(comments, items);
    IdCount(added);
    TopCount(added);
    LatestIsMax(added);
    NoEmptyParents(added);
  }

  lemma Difference<T>(a: set<T>, b: set<T>)
    requires b <= a
    ensures |a - b| == |a| - |b|
  {
    assert a == b + (a - b);
  }

  /** The page is accounted for by a delta: a rollup exists and nothing counted changes. */
  ghost predicate DeltaPath(t: Tables, items: seq<Comment>, video: string) {
    video in t.rollups && forall c :: c in items ==> !NeedsAbsolute(t.comments, c)
  }

  /** What a successful page commit amounts to. */
  lemma PersistPageShape(t: Tables, dualWrite: bool, page: seq<Comment>, job: Option<string>, checkpoint: Option<Checkpoint>)
    requires PersistPage(t, dualWrite, page, job, checkpoint).Success?
    ensures var items, next := CleanPage(page), PersistPage(t, dualWrite, page, job, checkpoint).value;
            && DistinctIds(items)
            && (forall c :: c in items ==> c.video in t.videos && !Moves(t.comments, c))
            && (items != [] ==>
                && OneVideo(items, items[0].video)
                && next.rollups == NextRollups(t, dualWrite, items, items[0].video))
            && next.videos == t.videos
            && next.comments == Upserted(t.comments, items)
            && (items == [] ==> next.comments == t.comments && next.rollups == t.rollups)
  {
    var items := CleanPage(page);
    DeduplicateDistinct(seq(|page|, i requires 0 <= i < |page| => Sanitize(page[i])));
    if items != [] {
      forall c | c in items ensures c.video == items[0].video {
        SingletonSet(VideosOn(items), c.video, items[0].video);
      }
    } else {
      assert Upserted(t.comments, items) == t.comments;
    }
  }

  /** A page is accepted exactly when all its comments are of one video, which is stored, none of them is
      stored for another video, and a checkpoint comes with the name of a running job. */
  lemma PageAcceptedIff(t: Tables, dualWrite: bool, page: seq<Comment>, job: Option<string>, checkpoint: Option<Checkpoint>)
    ensures PersistPage(t, dualWrite, page, job, checkpoint).Success? <==>
            && (forall a, b :: a in CleanPage(page) && b in CleanPage(page) ==> a.video == b.video)
            && (forall c :: c in CleanPage(page) ==>
                  c.video in t.videos && (c.id in t.comments ==> t.comments[c.id].comment.video == c.video))
            && (checkpoint.Some? ==> job.Some? && job.value != "" && job.value in t.runningJobs)
  {
    AcceptedIff(t, CleanPage(page), job, checkpoint);
  }

  lemma AcceptedIff(t: Tables, items: seq<Comment>, job: Option<string>, checkpoint: Option<Checkpoint>)
    ensures PageErrorOf(t, items, job, checkpoint).None? <==>
            && (forall a, b :: a in items && b in items ==> a.video == b.video)
            && (forall c :: c in items ==>
                  c.video in t.videos && (c.id in t.comments ==> t.comments[c.id].comment.video == c.video))
            && (checkpoint.Some? ==> job.Some? && job.value != "" && job.value in t.runningJobs)
  {
    if |VideosOn(items)| <= 1 {
      forall a, b | a in items && b in items ensures a.video == b.video {
        SingletonSet(VideosOn(items), a.video, b.video);
      }
    }
    if forall a, b :: a in items && b in items ==> a.video == b.video {
      OneVideoOnly(items);
    }
  }

  lemma OneVideoOnly(items: seq<Comment>)
    requires forall a, b :: a in items && b in items ==> a.video == b.video
    ensures |VideosOn(items)| <= 1
  {
    if items != [] {
      assert VideosOn(items) == {items[0].video};
    }
  }

  /** The cursor the next claim of a job would start from. */
  function StoredCursor(t: Tables, job: string, stage: string, scope: string): (Option<nat>, int) {
    if job in t.runningJobs then ResumeCursor(t.runningJobs[job], stage, scope) else (None, 0)
  }

  /** The checkpoint commits with the page: afterwards its job, which was running, resumes where the
      checkpoint says; every other job resumes where it did, and no job appears or goes. */
  lemma CheckpointCommits(t: Tables, dualWrite: bool, page: seq<Comment>, job: Option<string>, checkpoint: Option<Checkpoint>,
                          other: string, stage: string, scope: string)
    requires PersistPage(t, dualWrite, page, job, checkpoint).Success?
    ensures var after := PersistPage(t, dualWrite, page, job, checkpoint).value;
            && after.runningJobs.Keys == t.runningJobs.Keys
            && (checkpoint.Some? ==> job.Some? && job.value in t.runningJobs && job.value != "")
            && StoredCursor(after, other, stage, scope)
               == (if checkpoint.Some? && job == Some(other) then ResumeCursor(checkpoint.value, stage, scope)
                   else StoredCursor(t, other, stage, scope))
            && (checkpoint.Some? && job == Some(other) ==> after.runningJobs[other] == checkpoint.value)
            && (!(checkpoint.Some? && job == Some(other)) && other in t.runningJobs ==>
                  after.runningJobs[other] == t.runningJobs[other])
  {
  }

  lemma SingletonSet<T>(s: set<T>, a: T, b: T)
    requires |s| <= 1 && a in s && b in s
    ensures a == b
  {
    if a != b {
      SubsetCardinality({a, b}, s);
    }
  }

  /** A page never touches what is stored, or counted, for another video. */
  lemma OtherVideosUntouched(comments: map<string, Row>, items: seq<Comment>, video: string, other: string)
    requires WellKeyed(comments) && DistinctIds(items) && OneVideo(items, video) && other != video
    requires forall c :: c in items ==> !Moves(comments, c)
    ensures Aggregate(Upserted(comments, items), other) == Aggregate(comments, other)
  {
    var after := Upserted(comments, items);
    forall id
      ensures id in IdsOf(after, other) <==> id in IdsOf(comments, other)
      ensures id in IdsOf(comments, other) ==> after[id] == comments[id]
    {
      UpsertedAt(comments, items, id);
      if c :| c in items && c.id == id {
        assert after[id].comment == c;
      }
    }
    assert IdsOf(after, other) == IdsOf(comments, other);
    assert TopIdsOf(after, other) == TopIdsOf(comments, other) by {
      forall id ensures id in TopIdsOf(after, other) <==> id in TopIdsOf(comments, other) {
        assert id in IdsOf(after, other) <==> id in IdsOf(comments, other);
      }
    }
    SameTimes(comments, after, other);
  }

  lemma SameTimes(before: map<string, Row>, after: map<string, Row>, video: string)
    requires IdsOf(before, video) == IdsOf(after, video)
    requires forall id :: id in IdsOf(before, video) ==> after[id] == before[id]
    ensures TimesOf(before, video) == TimesOf(after, video)
  {
    forall t | t in TimesOf(before, video) ensures t in TimesOf(after, video) {
      var id :| id in before && before[id].comment.video == video && Effective(before[id].comment) == t;
      assert id in IdsOf(before, video);
    }
    forall t | t in TimesOf(after, video) ensures t in TimesOf(before, video) {
      var id :| id in after && after[id].comment.video == video && Effective(after[id].comment) == t;
      assert id in IdsOf(after, video);
    }
  }

  lemma UpsertKeepsKeys(comments: map<string, Row>, items: seq<Comment>)
    requires WellKeyed(comments) && DistinctIds(items)
    ensures WellKeyed(Upserted(comments, items))
  {
    forall id | id in Upserted(comments, items) ensures Upserted(comments, items)[id].comment.id == id {
      UpsertedAt(comments, items, id);
      if c :| c in items && c.id == id {
        assert Upserted(comments, items)[id].comment == c;
      }
    }
  }

  /** A rollup row that did not change and is still the recount. */
  ghost predicate KeptRow(before: Tables, after: Tables, video: string) {
    video in before.rollups && video in after.rollups
    && after.rollups[video] == before.rollups[video] && Correct(after, video)
  }

  /** What a page does to one rollup row, its own or another. */
  ghost predicate PageOutcome(before: Tables, items: seq<Comment>, after: Tables, video: string) {
    if items != [] && items[0].video == video then
      && video in after.rollups
      && (Correct(after, video) <==>
          !DeltaPath(before, items, video) || !HasEmptyParent(NewComments(before.comments, items)))
    else
      && (video in after.rollups <==> video in before.rollups)
      && (video in before.rollups ==> KeptRow(before, after, video))
  }

  /** Rollup refinement, one page and one row: with dual write on and the row absent or correct,
      a page of its video leaves the row present, and equal to the recount exactly when the page
      was recounted or adds no comment with an empty parent id. Any other row stays as it was. */
  lemma PageKeepsRollups(t: Tables, page: seq<Comment>, job: Option<string>, checkpoint: Option<Checkpoint>, video: string)
    requires WellKeyed(t.comments) && RowOk(t, video)
    requires PersistPage(t, true, page, job, checkpoint).Success?
    ensures WellKeyed(PersistPage(t, true, page, job, checkpoint).value.comments)
    ensures PageOutcome(t, CleanPage(page), PersistPage(t, true, page, job, checkpoint).value, video)
  {
    PersistPageShape(t, true, page, job, checkpoint);
    var items := CleanPage(page);
    UpsertKeepsKeys(t.comments, items);
    if items != [] {
      if items[0].video == video {
        PageRowIsRecount(t, items, video);
      } else {
        OtherVideosUntouched(t.comments, items, items[0].video, video);
        OtherRows(t, items, items[0].video, video);
      }
    }
  }

  lemma OtherRows(t: Tables, items: seq<Comment>, video: string, other: string)
    requires other != video
    ensures var next := NextRollups(t, true, items, video);
            && (other in next <==> other in t.rollups)
            && (other in next ==> next[other] == t.rollups[other])
  {
  }

  lemma PageRowIsRecount(t: Tables, items: seq<Comment>, video: string)
    requires WellKeyed(t.comments) && RowOk(t, video) && DistinctIds(items)
    requires items != [] && OneVideo(items, video) && forall c :: c in items ==> !Moves(t.comments, c)
    ensures var after, rollups := Upserted(t.comments, items), NextRollups(t, true, items, video);
            && rollups.Keys == t.rollups.Keys + {video}
            && (rollups[video] == Aggregate(after, video) <==>
                !DeltaPath(t, items, video) || !HasEmptyParent(NewComments(t.comments, items)))
  {
    if DeltaPath(t, items, video) {
      DeltaRow(t, items, video);
      DeltaIsRecount(t.comments, items, video);
    } else {
      RecountRow(t, items, video);
    }
  }

  lemma DeltaRow(t: Tables, items: seq<Comment>, video: string)
    requires RowOk(t, video) && DeltaPath(t, items, video)
    ensures var rollups := NextRollups(t, true, items, video);
            && rollups.Keys == t.rollups.Keys + {video}
            && rollups[video] == Delta(Aggregate(t.comments, video), NewComments(t.comments, items))
  {
  }

  lemma RecountRow(t: Tables, items: seq<Comment>, video: string)
    requires !DeltaPath(t, items, video)
    ensures NextRollups(t, true, items, video) == t.rollups[video := Aggregate(Upserted(t.comments, items), video)]
  {
  }

  /** The writer's history: pages that fail leave no trace. */
  function PersistAll(t: Tables, pages: seq<seq<Comment>>): Tables {
    if pages == [] then t
    else
      var before := PersistAll(t, pages[..|pages| - 1]);
      match PersistPage(before, true, pages[|pages| - 1], None, None)
      case Success(next) => next
      case Failure(_) => before
  }

  ghost predicate ParentsGiven(page: seq<Comment>) {
    !HasEmptyParent(CleanPage(page))
  }

  /** Rollup refinement over every history of pages, replays and edits included: as long as no
      page carries an empty parent id, every rollup row that exists equals the simple count. */
  lemma {:induction false} EveryHistoryKeepsRollups(t: Tables, pages: seq<seq<Comment>>)
    requires WellKeyed(t.comments) && CorrectOrAbsent(t)
    requires forall k :: 0 <= k < |pages| ==> ParentsGiven(pages[k])
    ensures WellKeyed(PersistAll(t, pages).comments) && CorrectOrAbsent(PersistAll(t, pages))
  {
    if pages != [] {
      var n := |pages| - 1;
      EveryHistoryKeepsRollups(t, pages[..n]);
      var before := PersistAll(t, pages[..n]);
      if PersistPage(before, true, pages[n], None, None).Success? {
        PageKeepsCorrectOrAbsent(before, pages[n], None, None);
      }
    }
  }

  lemma PageKeepsCorrectOrAbsent(t: Tables, page: seq<Comment>, job: Option<string>, checkpoint: Option<Checkpoint>)
    requires WellKeyed(t.comments) && CorrectOrAbsent(t) && ParentsGiven(page)
    requires PersistPage(t, true, page, job, checkpoint).Success?
    ensures WellKeyed(PersistPage(t, true, page, job, checkpoint).value.comments)
    ensures CorrectOrAbsent(PersistPage(t, true, page, job, checkpoint).value)
  {
    forall video ensures RowOk(PersistPage(t, true, page, job, checkpoint).value, video) {
      PageKeepsRow(t, page, job, checkpoint, video);
    }
    PageKeepsRow(t, page, job, checkpoint, "");
  }

  /** A page without empty parents keeps a good row good, and a present row present. */
  lemma PageKeepsRow(t: Tables, page: seq<Comment>, job: Option<string>, checkpoint: Option<Checkpoint>, video: string)
    requires WellKeyed(t.comments) && RowOk(t, video)
    ensures var result := PersistPage(t, true, page, job, checkpoint);
            ParentsGiven(page) && result.Success? ==>
              && WellKeyed(result.value.comments) && RowOk(result.value, video)
              && (video in t.rollups ==> video in result.value.rollups)
  {
    if ParentsGiven(page) && PersistPage(t, true, page, job, checkpoint).Success? {
      PageKeepsRollups(t, page, job, checkpoint, video);
      PersistPageShape(t, true, page, job, checkpoint);
      NewCommentsAre(t.comments, CleanPage(page));
    }
  }

  // ---- two pages that show what an empty parent does ---------------------------------

  function Plain(id: string, video: string, parent: Option<string>): Comment {
    Comment(id, video, parent, None, 0, "", 0)
  }

  /** A page of one comment with plain text fields is what the writer sees. */
  lemma SingleIsClean(c: Comment)
    requires Sanitize(c) == c
    ensures CleanPage([c]) == [c]
  {
    var sanitized := seq(1, i requires 0 <= i < 1 => Sanitize([c][i]));
    assert sanitized == [c] && sanitized[..0] == [];
    assert Deduplicate([]) == [] && Put([], c) == [c];
  }

  lemma SinglePageIsAccepted(t: Tables, c: Comment)
    requires Sanitize(c) == c && c.video in t.videos && c.id !in t.comments
    ensures PersistPage(t, true, [c], None, None).Success?
  {
    SingleIsClean(c);
    assert VideosOn([c]) == {c.video};
  }

  /** From an empty store: a first page makes a correct row, and a second page whose comment names an
      empty parent spoils it. */
  lemma EmptyParentMiscounts()
    ensures var empty := Tables({"v"}, map[], map[], map[]);
            var pages := [[Plain("a", "v", None)], [Plain("b", "v", Some(""))]];
            CorrectOrAbsent(empty) && !CorrectOrAbsent(PersistAll(empty, pages))
  {
    var empty := Tables({"v"}, map[], map[], map[]);
    var a, b := Plain("a", "v", None), Plain("b", "v", Some(""));
    PlainIsClean("a", "v", None);
    PlainIsClean("b", "v", Some(""));
    SpoiledByEmptyParent(empty, a, b);
  }

  lemma PlainIsClean(id: string, video: string, parent: Option<string>)
    requires |id| == |video| == 1 && id[0] != '\0' && video[0] != '\0' && (parent.Some? ==> parent.value == "")
    ensures Sanitize(Plain(id, video, parent)) == Plain(id, video, parent)
  {
    assert id == [id[0]] && video == [video[0]] && id[1..] == "" && video[1..] == "";
  }

  lemma SpoiledByEmptyParent(t: Tables, a: Comment, b: Comment)
    requires WellKeyed(t.comments) && Sanitize(a) == a && Sanitize(b) == b && a.id != b.id && a.video == b.video
    requires a.video in t.videos && a.id !in t.comments && b.id !in t.comments && a.video !in t.rollups
    requires b.parent == Some("")
    ensures !CorrectOrAbsent(PersistAll(t, [[a], [b]]))
  {
    FirstPageCounts(t, a);
    var counted := PersistPage(t, true, [a], None, None).value;
    SecondPageMiscounts(counted, b);
    PersistTwo(t, [a], [b]);
    assert !RowOk(PersistAll(t, [[a], [b]]), a.video);
  }

  lemma PersistTwo(t: Tables, p: seq<Comment>, q: seq<Comment>)
    requires PersistPage(t, true, p, None, None).Success?
    requires PersistPage(PersistPage(t, true, p, None, None).value, true, q, None, None).Success?
    ensures PersistAll(t, [p, q]) == PersistPage(PersistPage(t, true, p, None, None).value, true, q, None, None).value
  {
    assert [p, q][..1] == [p] && [p][..0] == [];
    assert PersistAll(t, []) == t;
    assert PersistAll(t, [p]) == PersistPage(t, true, p, None, None).value;
  }

  lemma FirstPageCounts(t: Tables, c: Comment)
    requires WellKeyed(t.comments) && Sanitize(c) == c && c.video in t.videos && c.id !in t.comments && c.video !in t.rollups
    ensures PersistPage(t, true, [c], None, None).Success?
    ensures var next := PersistPage(t, true, [c], None, None).value;
            WellKeyed(next.comments) && Correct(next, c.video) && next.videos == t.videos
            && forall id :: id in next.comments <==> id in t.comments || id == c.id
  {
    SinglePageIsAccepted(t, c);
    SingleIsClean(c);
    PageKeepsRollups(t, [c], None, None, c.video);
    forall id ensures id in Upserted(t.comments, [c]) <==> id in t.comments || id == c.id {
      UpsertedAt(t.comments, [c], id);
    }
  }

  lemma SecondPageMiscounts(t: Tables, c: Comment)
    requires WellKeyed(t.comments) && Correct(t, c.video) && c.video in t.videos && c.id !in t.comments
    requires Sanitize(c) == c && c.parent == Some("")
    ensures PersistPage(t, true, [c], None, None).Success?
    ensures !RowOk(PersistPage(t, true, [c], None, None).value, c.video)
  {
    SinglePageIsAccepted(t, c);
    SingleIsClean(c);
    PageKeepsRollups(t, [c], None, None, c.video);
    assert NewComments(t.comments, [c]) == [c];
    assert HasEmptyParent([c]);
  }

  // ---- replays ---------------------------------------------------------------------

  /** A reply to another reply of its own page that was not stored before the page. */
  predicate NestedOnPage(comments: map<string, Row>, items: seq<Comment>, c: Comment) {
    && !LooksTopLevel(c) && c.parent.value !in comments
    && exists p | p in items :: p.id == c.parent.value && !LooksTopLevel(p)
  }

  lemma ResolveAgain(comments: map<string, Row>, items: seq<Comment>, c: Comment)
    requires DistinctIds(items) && c in items
    ensures Resolve(Upserted(comments, items), items, c) == Resolve(comments, items, c)
            <==> !NestedOnPage(comments, items, c)
  {
    if !LooksTopLevel(c) {
      UpsertedAt(comments, items, c.parent.value);
      forall p, q | p in items && q in items && p.id == q.id ensures p == q {
        ItemAtIs(items, p);
        ItemAtIs(items, q);
      }
    }
  }

  lemma {:induction false} NoNewComments(comments: map<string, Row>, items: seq<Comment>)
    requires forall c :: c in items ==> c.id in comments
    ensures NewComments(comments, items) == []
  {
    if items != [] {
      NoNewComments(comments, items[..|items| - 1]);
    }
  }

  /** Replaying a page after a crash succeeds again and cannot inflate a count: every comment and
      every rollup is as the first write left it. The rows are wholly unchanged exactly when no
      reply on the page answers another reply that was new on it. */
  lemma ReplayIsHarmless(t: Tables, page: seq<Comment>)
    requires PersistPage(t, true, page, None, None).Success?
    ensures var once := PersistPage(t, true, page, None, None).value;
            var twice := PersistPage(once, true, page, None, None);
            && twice.Success?
            && twice.value.rollups == once.rollups
            && SameComments(once.comments, twice.value.comments)
            && (twice.value == once <==> !SomeNested(t.comments, CleanPage(page)))
  {
    var items := CleanPage(page);
    var once := PersistPage(t, true, page, None, None).value;
    PersistPageShape(t, true, page, None, None);
    AcceptedAgain(t, items, once);
    var twice := PersistPage(once, true, page, None, None).value;
    PersistPageShape(once, true, page, None, None);
    RowsAgain(t.comments, items);
    if items != [] {
      RollupsAgain(t, items, once, items[0].video);
    }
  }

  lemma SettledItems(comments: map<string, Row>, items: seq<Comment>)
    requires DistinctIds(items)
    ensures var once := Upserted(comments, items);
            forall c :: c in items ==> c.id in once && !Moves(once, c) && !NeedsAbsolute(once, c)
  {
    UpsertedAt(comments, items, "");
  }

  lemma AcceptedAgain(t: Tables, items: seq<Comment>, once: Tables)
    requires DistinctIds(items) && once.comments == Upserted(t.comments, items) && once.videos == t.videos
    requires PageErrorOf(t, items, None, None).None?
    ensures PageErrorOf(once, items, None, None).None?
  {
    NothingMoves(t.comments, items);
  }

  lemma NothingMoves(comments: map<string, Row>, items: seq<Comment>)
    requires DistinctIds(items)
    ensures forall c :: c in items ==> !Moves(Upserted(comments, items), c)
  {
    SettledItems(comments, items);
  }

  lemma RollupsAgain(t: Tables, items: seq<Comment>, once: Tables, video: string)
    requires DistinctIds(items) && once.comments == Upserted(t.comments, items)
    requires once.rollups == NextRollups(t, true, items, video)
    ensures NextRollups(once, true, items, video) == once.rollups
  {
    SettledItems(t.comments, items);
    NoNewComments(once.comments, items);
  }

  ghost predicate SameComments(a: map<string, Row>, b: map<string, Row>) {
    a.Keys == b.Keys && forall id :: id in a ==> a[id].comment == b[id].comment
  }

  lemma SameRowsAgain(comments: map<string, Row>, items: seq<Comment>)
    requires DistinctIds(items)
    ensures SameComments(Upserted(comments, items), Upserted(Upserted(comments, items), items))
  {
    var once := Upserted(comments, items);
    forall id ensures id in once <==> id in Upserted(once, items) {
      UpsertedAt(comments, items, id);
      UpsertedAt(once, items, id);
    }
    forall id | id in once ensures once[id].comment == Upserted(once, items)[id].comment {
      RowAgain(comments, items, id);
    }
  }

  ghost predicate SomeNested(comments: map<string, Row>, items: seq<Comment>) {
    exists c :: c in items && NestedOnPage(comments, items, c)
  }

  lemma NothingNestedAgain(comments: map<string, Row>, items: seq<Comment>)
    requires DistinctIds(items) && !SomeNested(comments, items)
    ensures Upserted(Upserted(comments, items), items) == Upserted(comments, items)
  {
    var once := Upserted(comments, items);
    var twice := Upserted(once, items);
    SameRowsAgain(comments, items);
    assert twice.Keys == once.Keys;
    forall id | id in once ensures twice[id] == once[id] {
      NotNestedRowAgain(comments, items, id);
    }
    SameMap(once, twice);
  }

  lemma NotNestedRowAgain(comments: map<string, Row>, items: seq<Comment>, id: string)
    requires DistinctIds(items) && !SomeNested(comments, items) && id in Upserted(comments, items)
    requires id in Upserted(Upserted(comments, items), items)
    ensures Upserted(Upserted(comments, items), items)[id] == Upserted(comments, items)[id]
  {
    RowAgain(comments, items, id);
  }

  lemma SameMap(a: map<string, Row>, b: map<string, Row>)
    requires a.Keys == b.Keys && forall id :: id in a ==> b[id] == a[id]
    ensures a == b
  {
  }

  lemma RowsAgain(comments: map<string, Row>, items: seq<Comment>)
    requires DistinctIds(items)
    ensures SameComments(Upserted(comments, items), Upserted(Upserted(comments, items), items))
    ensures Upserted(Upserted(comments, items), items) == Upserted(comments, items) <==> !SomeNested(comments, items)
  {
    SameRowsAgain(comments, items);
    if SomeNested(comments, items) {
      var c :| c in items && NestedOnPage(comments, items, c);
      ItemAgain(comments, items, c);
    } else {
      NothingNestedAgain(comments, items);
    }
  }

  lemma ItemAgain(comments: map<string, Row>, items: seq<Comment>, c: Comment)
    requires DistinctIds(items) && c in items
    ensures var once := Upserted(comments, items);
            var twice := Upserted(once, items);
            c.id in once && c.id in twice && (once[c.id] == twice[c.id] <==> !NestedOnPage(comments, items, c))
  {
    var once := Upserted(comments, items);
    UpsertedAt(comments, items, c.id);
    UpsertedAt(once, items, c.id);
    ResolveAgain(comments, items, c);
  }

  lemma RowAgain(comments: map<string, Row>, items: seq<Comment>, id: string)
    requires DistinctIds(items) && id in Upserted(comments, items)
    ensures var once := Upserted(comments, items);
            var twice := Upserted(once, items);
            id in twice && (once[id] == twice[id] || exists c ::
              c in items && c.id == id && once[id].comment == c && twice[id].comment == c && NestedOnPage(comments, items, c))
  {
    var once := Upserted(comments, items);
    UpsertedAt(comments, items, id);
    UpsertedAt(once, items, id);
    if c :| c in items && c.id == id {
      ResolveAgain(comments, items, c);
      assert once[id].comment == c && Upserted(once, items)[id].comment == c;
    }
  }

  // ---- the writer ------------------------------------------------------------------

  /** Top-level comments are written first. */
  function TopLevelWritten(comments: map<string, Row>, items: seq<Comment>): map<string, Row> {
    if items == [] then comments
    else
      var n := |items| - 1;
      var init := TopLevelWritten(comments, items[..n]);
      if LooksTopLevel(items[n]) then init[items[n].id := Row(items[n], None)] else init
  }

  /** Replies follow, each resolving its parent in the table the top-level pass left behind. */
  function RepliesWritten(table: map<string, Row>, items: seq<Comment>): map<string, Row> {
    if items == [] then table
    else
      var n := |items| - 1;
      var init := RepliesWritten(table, items[..n]);
      if LooksTopLevel(items[n]) then init
      else init[items[n].id := Row(items[n], if items[n].parent.value in table then items[n].parent else None)]
  }

  lemma {:induction false} TopLevelWrittenAt(comments: map<string, Row>, items: seq<Comment>, id: string)
    requires DistinctIds(items)
    ensures var table := TopLevelWritten(comments, items);
            && (forall c :: c in items && LooksTopLevel(c) && c.id == id ==> id in table && table[id] == Row(c, None))
            && ((forall c :: c in items && LooksTopLevel(c) ==> c.id != id) ==>
                (id in table <==> id in comments) && (id in table ==> table[id] == comments[id]))
  {
    if items != [] {
      var n := |items| - 1;
      TopLevelWrittenAt(comments, items[..n], id);
      assert items == items[..n] + [items[n]];
    }
  }

  lemma {:induction false} RepliesWrittenAt(table: map<string, Row>, items: seq<Comment>, id: string)
    requires DistinctIds(items)
    ensures var after := RepliesWritten(table, items);
            && (forall c :: c in items && !LooksTopLevel(c) && c.id == id ==>
                  id in after && after[id] == Row(c, if c.parent.value in table then c.parent else None))
            && ((forall c :: c in items && !LooksTopLevel(c) ==> c.id != id) ==>
                (id in after <==> id in table) && (id in after ==> after[id] == table[id]))
  {
    if items != [] {
      var n := |items| - 1;
      RepliesWrittenAt(table, items[..n], id);
      assert items == items[..n] + [items[n]];
    }
  }

  /** Writing in two passes is the same as resolving every parent at once. */
  lemma TwoPassesAreUpserted(comments: map<string, Row>, items: seq<Comment>)
    requires DistinctIds(items)
    ensures RepliesWritten(TopLevelWritten(comments, items), items) == Upserted(comments, items)
  {
    var table := TopLevelWritten(comments, items);
    var after, goal := RepliesWritten(table, items), Upserted(comments, items);
    forall id ensures id in after <==> id in goal
              ensures id in after && id in goal ==> after[id] == goal[id]
    {
      TopLevelWrittenAt(comments, items, id);
      RepliesWrittenAt(table, items, id);
      UpsertedAt(comments, items, id);
      if c :| c in items && c.id == id {
        if !LooksTopLevel(c) {
          TopLevelWrittenAt(comments, items, c.parent.value);
        }
        forall d | d in items && d.id == id ensures d == c {
          ItemAtIs(items, c);
          ItemAtIs(items, d);
        }
      }
    }
  }

  class CommentStore {
    const dualWrite: bool
    var videos: set<string>
    var comments: map<string, Row>
    var rollups: map<string, Rollup>
    var runningJobs: map<string, Checkpoint>

    constructor (dualWrite: bool, videos: set<string>)
      ensures this.dualWrite == dualWrite && Snapshot() == Tables(videos, map[], map[], map[])
    {
      this.dualWrite, this.videos := dualWrite, videos;
      comments, rollups, runningJobs := map[], map[], map[];
    }

    function Snapshot(): Tables
      reads this
    {
      Tables(videos, comments, rollups, runningJobs)
    }

    /** Writes one upstream page, its rollup row and an optional checkpoint in one transaction. */
    method PersistCommentPage(page: seq<Comment>, job: Option<string>, checkpoint: Option<Checkpoint>)
      returns (result: Result<seq<Comment>, PageError>)
      modifies this
      ensures match PersistPage(old(Snapshot()), dualWrite, page, job, checkpoint)
              case Failure(error) => result == Failure(error) && Snapshot() == old(Snapshot())
              case Success(next) => result == Success(CleanPage(page)) && Snapshot() == next
    {
      var sanitized := seq(|page|, i requires 0 <= i < |page| => Sanitize(page[i]));
      var items: seq<Comment> := [];
      for i := 0 to |sanitized|
        invariant items == Deduplicate(sanitized[..i])
      {
        assert sanitized[..i + 1][..i] == sanitized[..i];
        items := Put(items, sanitized[i]);
      }
      assert sanitized[..|sanitized|] == sanitized;
      var error := PageErrorOf(Snapshot(), items, job, checkpoint);
      if error.Some? {
        return Failure(error.value);
      }
      DeduplicateDistinct(sanitized);
      var table := WritePage(items);
      if items != [] && dualWrite {
        WriteRollup(items, table, items[0].video);
      }
      comments := table;
      if checkpoint.Some? {
        runningJobs := runningJobs[job.value := checkpoint.value];
      }
      result := Success(items);
    }

    method WritePage(items: seq<Comment>) returns (table: map<string, Row>)
      requires DistinctIds(items)
      ensures table == Upserted(comments, items)
    {
      TwoPassesAreUpserted(comments, items);
      table := comments;
      for i := 0 to |items|
        invariant table == TopLevelWritten(comments, items[..i])
      {
        assert items[..i + 1][..i] == items[..i];
        if LooksTopLevel(items[i]) {
          table := table[items[i].id := Row(items[i], None)];
        }
      }
      assert items[..|items|] == items;
      var parents := table;
      for i := 0 to |items|
        invariant table == RepliesWritten(parents, items[..i])
      {
        assert items[..i + 1][..i] == items[..i];
        if !LooksTopLevel(items[i]) {
          var parent := items[i].parent;
          table := table[items[i].id := Row(items[i], if parent.value in parents then parent else None)];
        }
      }
    }

    /** Finds what the page adds, and whether it changes anything already counted. */
    method Classify(items: seq<Comment>) returns (absolute: bool, added: seq<Comment>)
      ensures absolute <==> SomeNeedAbsolute(comments, items)
      ensures added == NewComments(comments, items)
    {
      absolute, added := false, [];
      for i := 0 to |items|
        invariant absolute <==> exists c | c in items[..i] :: NeedsAbsolute(comments, c)
        invariant added == NewComments(comments, items[..i])
      {
        assert items[..i + 1] == items[..i] + [items[i]];
        assert items[..i + 1][..i] == items[..i];
        absolute := absolute || NeedsAbsolute(comments, items[i]);
        if items[i].id !in comments {
          added := added + [items[i]];
        }
      }
      assert items[..|items|] == items;
    }

    /** Adds the page's own counters to a rollup row. */
    method AddTo(before: Rollup, added: seq<Comment>) returns (after: Rollup)
      ensures after == Delta(before, added)
    {
      var tops, latest := 0, None;
      for i := 0 to |added|
        invariant tops == CountTopLevel(added[..i]) && latest == LatestOf(added[..i])
      {
        assert added[..i + 1][..i] == added[..i];
        tops := tops + if LooksTopLevel(added[i]) then 1 else 0;
        latest := Later(latest, Some(Effective(added[i])));
      }
      assert added[..|added|] == added;
      after := Rollup(before.stored + |added|, before.topLevel + tops,
                      before.replies + |added| - tops, Later(before.latest, latest));
    }

    /** Chooses between a recount and a delta for the page's video. */
    method WriteRollup(items: seq<Comment>, table: map<string, Row>, video: string)
      requires table == Upserted(comments, items)
      modifies this`rollups
      ensures rollups == NextRollups(old(Snapshot()), true, items, video)
    {
      var absolute, added := Classify(items);
      if absolute || video !in rollups {
        rollups := rollups[video := Aggregate(table, video)];
      } else if added != [] {
        var after := AddTo(rollups[video], added);
        rollups := rollups[video := after];
      }
      assert rollups == ChooseRollup(old(rollups), video, absolute, added, Aggregate(table, video));
    }
  }
}
