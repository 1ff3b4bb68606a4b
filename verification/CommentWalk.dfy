/** The resumable walk over a video's public comments:
    apps/worker/monitube_worker/collection/comments.py, driven by collector.py. */
module CommentWalk {
  import opened Common
  import opened Checkpoints

  /** One item of a commentThreads page. An empty id is an item the provider sent without one. */
  datatype Thread = Thread(id: string, top: string, inlineReplies: seq<string>, totalReplyCount: int)

  /** A fixed upstream: the thread pages of one video and the reply pages of each top-level comment. */
  datatype Upstream = Upstream(pages: seq<seq<Thread>>, replyPages: map<string, seq<seq<string>>>) {

    /** comments.list answers an unknown parent with one empty page. */
    function RepliesOf(parent: string): (pages: seq<seq<string>>)
      ensures |pages| > 0
    {
      if parent in replyPages && replyPages[parent] != [] then replyPages[parent] else [[]]
    }

    /** Ids of all replies to a top-level comment. */
    ghost function ReplyIds(parent: string): set<string> {
      IdsThrough(RepliesOf(parent), |RepliesOf(parent)|)
    }

    ghost predicate HasThread(top: string, threadId: string) {
      exists i, j | 0 <= i < |pages| && 0 <= j < |pages[i]| :: pages[i][j].top == top && pages[i][j].id == threadId
    }

    ghost function TopIds(): set<string> {
      set i, j | 0 <= i < |pages| && 0 <= j < |pages[i]| && pages[i][j].top != "" :: pages[i][j].top
    }

    /** Every public comment of the video, replies included. */
    ghost function AllIds(): set<string> {
      TopIds() + set t, r | t in TopIds() && r in ReplyIds(t) :: r
    }

    /** totalReplyCount is exact, and the embedded replies are distinct. */
    ghost predicate ExactCount(thread: Thread) {
      thread.totalReplyCount == |ReplyIds(thread.top)| && NoDuplicates(thread.inlineReplies)
    }

    /** Embedded replies are real, and a thread that is not walked embeds all of its replies. */
    ghost predicate Served(thread: Thread) {
      thread.top != "" ==>
        && Elements(thread.inlineReplies) <= ReplyIds(thread.top)
        && (NeedsTraversal(thread) || ReplyIds(thread.top) <= Elements(thread.inlineReplies) + {thread.top})
    }

    ghost predicate Complete() {
      && |pages| > 0
      && forall i, j :: 0 <= i < |pages| && 0 <= j < |pages[i]| ==> Served(pages[i][j])
    }
  }

  /** Ids on the first n reply pages. */
  ghost function IdsThrough(pages: seq<seq<string>>, n: nat): set<string>
    requires n <= |pages|
  {
    set i, r | 0 <= i < n && r in pages[i] && r != "" :: r
  }

  datatype CommentRow = CommentRow(id: string, video: string, parent: Option<string>, thread: string)

  /** What one interaction with the outside world does: nothing bad, comments disabled on the
      video, an API error the worker classifies (a quota error is counted), or a crash. */
  datatype Fault = Fine | Unavailable | ApiError(quota: bool) | Crash

  datatype Outcome = Returned(count: nat) | Raised(fault: Fault)

  /** One claimed run: how the outside world behaves, the page cap, whether it may stop early, and the
      comment count the video advertises at the time. */
  datatype Attempt = Attempt(faults: seq<Fault>, maxPages: Option<int>, incremental: bool, advertised: nat)

  /** How the turn of one thread page ends; comments may turn out to be disabled. */
  datatype PageTurn = Collected(count: nat, allKnown: bool) | Disabled | Failed(fault: Fault)

  datatype JobOutcome = Finished | Skipped | CommentsUnavailable | Interrupted

  /** The rows one thread contributes to its page: the top-level comment, and its embedded
      replies when they are all of them. */
  function ThreadRows(video: string, thread: Thread): seq<CommentRow> {
    if thread.top == "" then []
    else if thread.totalReplyCount > |thread.inlineReplies| then [CommentRow(thread.top, video, None, thread.id)]
    else [CommentRow(thread.top, video, None, thread.id)] + ReplyRows(video, thread.id, thread.top, thread.inlineReplies)
  }

  function ReplyRows(video: string, threadId: string, parent: string, replies: seq<string>): seq<CommentRow> {
    if replies == [] then []
    else
      var n := |replies| - 1;
      ReplyRows(video, threadId, parent, replies[..n])
      + if replies[n] != "" then [CommentRow(replies[n], video, Some(parent), threadId)] else []
  }

  predicate NeedsTraversal(thread: Thread) {
    thread.top != "" && thread.totalReplyCount > |thread.inlineReplies|
  }

  lemma NextReplyPage(video: string, threadId: string, parent: string, pages: seq<seq<string>>, n: nat, before: set<string>)
    requires n < |pages|
    ensures before + IdsThrough(pages, n + 1)
            == before + IdsThrough(pages, n) + RowIds(ReplyRows(video, threadId, parent, pages[n]))
  {
    ReplyRowsContent(video, threadId, parent, pages[n]);
    forall r | r in pages[n] && r != "" ensures r in RowIds(ReplyRows(video, threadId, parent, pages[n])) {
      assert CommentRow(r, video, Some(parent), threadId) in ReplyRows(video, threadId, parent, pages[n]);
    }
  }

  lemma ReplyRowsGenuine(u: Upstream, video: string, threadId: string, parent: string, n: nat)
    requires parent != "" && u.HasThread(parent, threadId) && n < |u.RepliesOf(parent)|
    ensures AllGenuine(u, video, ReplyRows(video, threadId, parent, u.RepliesOf(parent)[n]))
  {
    ReplyRowsContent(video, threadId, parent, u.RepliesOf(parent)[n]);
  }

  lemma {:induction false} ReplyRowsContent(video: string, threadId: string, parent: string, replies: seq<string>)
    ensures forall row :: row in ReplyRows(video, threadId, parent, replies) <==>
              row.id in replies && row.id != "" && row == CommentRow(row.id, video, Some(parent), threadId)
  {
    if replies != [] {
      var n := |replies| - 1;
      ReplyRowsContent(video, threadId, parent, replies[..n]);
      assert replies == replies[..n] + [replies[n]];
    }
  }

  /** With exact counts every thread is served: it is walked, or all of its replies are embedded. */
  lemma ExactCountsAreServed(u: Upstream, thread: Thread)
    requires u.ExactCount(thread) && Elements(thread.inlineReplies) <= u.ReplyIds(thread.top)
    ensures u.Served(thread)
  {
    if thread.top != "" && !NeedsTraversal(thread) {
      DistinctLength(thread.inlineReplies);
      FullSubset(Elements(thread.inlineReplies), u.ReplyIds(thread.top));
    }
  }

  /** Every id the walk stores on account of one thread. */
  ghost function ThreadYield(u: Upstream, video: string, thread: Thread): set<string> {
    RowIds(ThreadRows(video, thread)) + if NeedsTraversal(thread) then u.ReplyIds(thread.top) else {}
  }

  /** Exactly when the walk loses no reply of a thread: the advertised total exceeds the number
      of embedded replies, or the embedded replies are all of them. */
  lemma ThreadYieldComplete(u: Upstream, video: string, thread: Thread)
    requires thread.top != ""
    ensures u.ReplyIds(thread.top) <= ThreadYield(u, video, thread) <==>
              thread.totalReplyCount > |thread.inlineReplies|
              || u.ReplyIds(thread.top) <= Elements(thread.inlineReplies) + {thread.top}
  {
    ReplyRowsContent(video, thread.id, thread.top, thread.inlineReplies);
    if !NeedsTraversal(thread) {
      var rows := ThreadRows(video, thread);
      forall r | r != "" ensures r in RowIds(rows) <==> r in thread.inlineReplies || r == thread.top {
        assert rows[0] == CommentRow(thread.top, video, None, thread.id);
        if r in thread.inlineReplies {
          assert CommentRow(r, video, Some(thread.top), thread.id) in rows;
        }
      }
    }
  }

  /** A stored row is genuine when the upstream serves exactly that comment in that place. */
  ghost predicate Genuine(u: Upstream, video: string, row: CommentRow) {
    && row.video == video && row.id != ""
    && match row.parent
       case None => u.HasThread(row.id, row.thread)
       case Some(parent) => parent != "" && u.HasThread(parent, row.thread) && row.id in u.ReplyIds(parent)
  }

  ghost predicate AllGenuine(u: Upstream, video: string, rows: seq<CommentRow>) {
    forall row :: row in rows ==> Genuine(u, video, row)
  }

  lemma GenuineIsPublic(u: Upstream, video: string, row: CommentRow)
    requires Genuine(u, video, row)
    ensures row.id in u.AllIds()
  {
  }

  lemma ThreadRowsGenuine(u: Upstream, video: string, i: nat, j: nat)
    requires u.Complete() && i < |u.pages| && j < |u.pages[i]|
    ensures AllGenuine(u, video, ThreadRows(video, u.pages[i][j]))
  {
    var thread := u.pages[i][j];
    assert u.Served(thread);
    if thread.top != "" {
      assert u.HasThread(thread.top, thread.id);
      ReplyRowsContent(video, thread.id, thread.top, thread.inlineReplies);
      assert forall r :: r in thread.inlineReplies ==> r in Elements(thread.inlineReplies);
    }
  }

  function RowIds(rows: seq<CommentRow>): set<string> {
    set row | row in rows :: row.id
  }

  ghost predicate ThreadIn(u: Upstream, ids: set<string>, thread: Thread) {
    thread.top != "" ==> thread.top in ids && u.ReplyIds(thread.top) <= ids
  }

  ghost predicate PageIn(u: Upstream, ids: set<string>, i: nat)
    requires i < |u.pages|
  {
    forall j :: 0 <= j < |u.pages[i]| ==> ThreadIn(u, ids, u.pages[i][j])
  }

  /** Every comment of the first n thread pages is among ids, replies included. */
  ghost predicate PagesIn(u: Upstream, ids: set<string>, n: nat)
    requires n <= |u.pages|
  {
    forall i :: 0 <= i < n ==> PageIn(u, ids, i)
  }

  /** A cursor is safe when everything before the page it opens is stored. */
  ghost predicate SafeCursor(u: Upstream, video: string, ids: set<string>, checkpoint: Checkpoint) {
    match ResumeCursor(checkpoint, "comments", video).0
    case None => true
    case Some(page) => page < |u.pages| && PagesIn(u, ids, page)
  }

  /** The state a crash may leave behind: only genuine rows, and no cursor past missing data. */
  ghost predicate Sound(u: Upstream, video: string, stored: map<string, CommentRow>,
                        durable: Checkpoint, active: Checkpoint) {
    && u.Complete()
    && (forall id :: id in stored ==> stored[id].id == id && Genuine(u, video, stored[id]))
    && SafeCursor(u, video, stored.Keys, durable)
    && SafeCursor(u, video, stored.Keys, active)
  }

  lemma SafeCursorGrows(u: Upstream, video: string, small: set<string>, large: set<string>, checkpoint: Checkpoint)
    requires small <= large && SafeCursor(u, video, small, checkpoint)
    ensures SafeCursor(u, video, large, checkpoint)
  {
    match ResumeCursor(checkpoint, "comments", video).0
    case None =>
    case Some(page) => PagesInGrows(u, small, large, page);
  }

  lemma PagesInGrows(u: Upstream, small: set<string>, large: set<string>, n: nat)
    requires n <= |u.pages| && small <= large && PagesIn(u, small, n)
    ensures PagesIn(u, large, n)
  {
    forall i | 0 <= i < n ensures PageIn(u, large, i) {
      assert PageIn(u, small, i);
      forall j | 0 <= j < |u.pages[i]| ensures ThreadIn(u, large, u.pages[i][j]) {
        assert ThreadIn(u, small, u.pages[i][j]);
      }
    }
  }

  lemma AllPagesAreAllIds(u: Upstream, ids: set<string>)
    requires PagesIn(u, ids, |u.pages|)
    ensures u.AllIds() <= ids
  {
    forall t | t in u.TopIds() ensures t in ids && u.ReplyIds(t) <= ids {
      var i, j :| 0 <= i < |u.pages| && 0 <= j < |u.pages[i]| && u.pages[i][j].top != "" && u.pages[i][j].top == t;
      assert PageIn(u, ids, i);
      assert ThreadIn(u, ids, u.pages[i][j]);
    }
  }

  function PageRows(video: string, threads: seq<Thread>): seq<CommentRow> {
    if threads == [] then []
    else PageRows(video, threads[..|threads| - 1]) + ThreadRows(video, threads[|threads| - 1])
  }

  function PageTraversals(threads: seq<Thread>): seq<Thread> {
    if threads == [] then []
    else
      var last := threads[|threads| - 1];
      PageTraversals(threads[..|threads| - 1]) + if NeedsTraversal(last) then [last] else []
  }

  /** The ids a thread page shows, embedded replies included. */
  function ListedIds(threads: seq<Thread>): set<string> {
    (set j | 0 <= j < |threads| && threads[j].top != "" :: threads[j].top)
    + set j, r | 0 <= j < |threads| && r in threads[j].inlineReplies && r != "" :: r
  }

  /** The page shows a comment with this id, top-level or embedded. */
  predicate Shows(threads: seq<Thread>, id: string) {
    id != "" && exists thread | thread in threads :: thread.top == id || id in thread.inlineReplies
  }

  lemma ListedAreShown(threads: seq<Thread>, id: string)
    ensures id in ListedIds(threads) <==> Shows(threads, id)
  {
    if thread :| id != "" && thread in threads && (thread.top == id || id in thread.inlineReplies) {
      var j :| 0 <= j < |threads| && threads[j] == thread;
      assert threads[j].top == id || id in threads[j].inlineReplies;
    }
  }

  /** The page shows something, and nothing that is not known. */
  ghost predicate NothingNew(threads: seq<Thread>, known: set<string>) {
    (exists id :: Shows(threads, id)) && forall id :: Shows(threads, id) ==> id in known
  }

  lemma AllKnownMeans(u: Upstream, known: set<string>, i: nat)
    requires i < |u.pages|
    ensures AllKnown(u, known, i) <==> NothingNew(u.pages[i], known)
  {
    forall id ensures id in ListedIds(u.pages[i]) <==> Shows(u.pages[i], id) {
      ListedAreShown(u.pages[i], id);
    }
    if id :| Shows(u.pages[i], id) {
      assert id in ListedIds(u.pages[i]);
    }
    if ListedIds(u.pages[i]) != {} {
      var id :| id in ListedIds(u.pages[i]);
      assert Shows(u.pages[i], id);
    }
  }

  lemma {:induction false} AfterPagesFrom(u: Upstream, video: string, from: nat, end: nat, ids: set<string>)
    requires from < end <= |u.pages|
    ensures AfterPages(u, video, from, end, ids) == AfterPages(u, video, from + 1, end, AfterPage(u, video, from, ids))
    decreases end
  {
    var last := AfterPages(u, video, from, end - 1, ids);
    assert AfterPages(u, video, from, end, ids) == AfterPage(u, video, end - 1, last);
    if from + 1 < end {
      AfterPagesFrom(u, video, from, end - 1, ids);
    } else {
      assert last == ids;
      assert AfterPages(u, video, from + 1, end, AfterPage(u, video, from, ids)) == AfterPage(u, video, from, ids);
    }
  }

  /** The walk from page i went on through every page that showed something it did not know, and if it ended
      before its limit, then after one that showed nothing new. */
  ghost predicate StopsRight(u: Upstream, video: string, known: set<string>, i: nat, end: nat, limit: nat)
    requires i <= end <= limit <= |u.pages|
  {
    && (end < limit ==> end > i && NothingNew(u.pages[end - 1], AfterPages(u, video, i, end - 1, known)))
    && forall p :: i <= p < end - 1 ==> !NothingNew(u.pages[p], AfterPages(u, video, i, p, known))
  }

  lemma StopsRightFrom(u: Upstream, video: string, known: set<string>, i: nat, end: nat, limit: nat)
    requires i < end <= limit <= |u.pages| && !NothingNew(u.pages[i], known)
    requires StopsRight(u, video, AfterPage(u, video, i, known), i + 1, end, limit)
    ensures StopsRight(u, video, known, i, end, limit)
  {
    var next := AfterPage(u, video, i, known);
    forall p | i + 1 <= p < end ensures AfterPages(u, video, i, p, known) == AfterPages(u, video, i + 1, p, next) {
      AfterPagesFrom(u, video, i, p, known);
    }
    assert AfterPages(u, video, i, i, known) == known;
  }

  /** An incremental walk ends right. */
  lemma {:induction false} IncrementalWalkStops(u: Upstream, video: string, known: set<string>, i: nat, limit: nat)
    requires i <= limit <= |u.pages|
    ensures StopsRight(u, video, known, i, WalkEnd(u, video, known, i, limit, true), limit)
    decreases limit - i
  {
    if i < limit {
      AllKnownMeans(u, known, i);
      if AllKnown(u, known, i) {
        assert AfterPages(u, video, i, i, known) == known;
      } else {
        IncrementalWalkStops(u, video, AfterPage(u, video, i, known), i + 1, limit);
        StopsRightFrom(u, video, known, i, WalkEnd(u, video, known, i, limit, true), limit);
      }
    }
  }

  lemma {:induction false} PageRowsContent(video: string, threads: seq<Thread>)
    ensures forall row :: row in PageRows(video, threads) <==>
              exists j | 0 <= j < |threads| :: row in ThreadRows(video, threads[j])
    ensures forall thread :: thread in PageTraversals(threads) <==> thread in threads && NeedsTraversal(thread)
  {
    if threads != [] {
      var n := |threads| - 1;
      PageRowsContent(video, threads[..n]);
      assert threads == threads[..n] + [threads[n]];
      forall row | row in PageRows(video, threads)
        ensures exists j | 0 <= j < |threads| :: row in ThreadRows(video, threads[j])
      {
        if row in PageRows(video, threads[..n]) {
          var j :| 0 <= j < n && row in ThreadRows(video, threads[..n][j]);
          assert row in ThreadRows(video, threads[j]);
        } else {
          assert row in ThreadRows(video, threads[n]);
        }
      }
      forall row, j | 0 <= j < |threads| && row in ThreadRows(video, threads[j])
        ensures row in PageRows(video, threads)
      {
        if j < n {
          assert threads[..n][j] == threads[j];
        }
      }
    }
  }

  /** The first n reply traversals have stored all of their replies. */
  ghost predicate WalksDone(u: Upstream, walks: seq<Thread>, n: nat, ids: set<string>)
    requires n <= |walks|
  {
    forall w :: 0 <= w < n ==> u.ReplyIds(walks[w].top) <= ids
  }

  /** What is stored after the first n traversals. */
  ghost function AfterWalks(u: Upstream, walks: seq<Thread>, n: nat, ids: set<string>): set<string>
    requires n <= |walks|
  {
    if n == 0 then ids else AfterWalks(u, walks, n - 1, ids) + u.ReplyIds(walks[n - 1].top)
  }

  /** What is stored after one thread page: its rows, and all replies of the threads it walks. */
  ghost function AfterPage(u: Upstream, video: string, i: nat, ids: set<string>): set<string>
    requires i < |u.pages|
  {
    var walks := PageTraversals(u.pages[i]);
    AfterWalks(u, walks, |walks|, ids + RowIds(PageRows(video, u.pages[i])))
  }

  ghost function AfterPages(u: Upstream, video: string, from: nat, to: nat, ids: set<string>): set<string>
    requires from <= to <= |u.pages|
  {
    if from == to then ids else AfterPage(u, video, to - 1, AfterPages(u, video, from, to - 1, ids))
  }

  /** Every comment the page lists, of which there is one, is known. */
  ghost predicate AllKnown(u: Upstream, known: set<string>, i: nat)
    requires i < |u.pages|
  {
    ListedIds(u.pages[i]) != {} && ListedIds(u.pages[i]) <= known
  }

  /** Where an undisturbed walk ends: at the limit, or after the first page on which an incremental
      refresh finds nothing it did not know. */
  ghost function WalkEnd(u: Upstream, video: string, known: set<string>, i: nat, limit: nat, incremental: bool): (end: nat)
    requires i <= limit <= |u.pages|
    ensures i <= end <= limit
    ensures !incremental ==> end == limit
    decreases limit - i
  {
    if i == limit then i
    else if incremental && AllKnown(u, known, i) then i + 1
    else WalkEnd(u, video, AfterPage(u, video, i, known), i + 1, limit, incremental)
  }

  /** The cursor left behind by a walk that has completed the pages before `next`. */
  ghost function CursorAt(u: Upstream, next: nat, completed: int): (Option<nat>, int) {
    (if next < |u.pages| then Some(next) else None, completed)
  }

  /** A walk that found `before` and completed the pages up to `end` has stored exactly what they
      yield, and its cursor opens the next page. */
  ghost predicate LeftAt(u: Upstream, video: string, before: set<string>, start: nat, end: nat, completed: int,
                         ids: set<string>, checkpoint: Checkpoint) {
    && start <= end <= |u.pages| && PagesIn(u, ids, end)
    && ids == AfterPages(u, video, start, end, before)
    && (start < end ==> ResumeCursor(checkpoint, "comments", video) == CursorAt(u, end, completed + end - start))
  }

  lemma OnePageMore(u: Upstream, video: string, before: set<string>, start: nat, i: nat, next: nat, completed: int,
                    ids: set<string>, checkpoint: Checkpoint, more: set<string>, moved: Checkpoint)
    requires LeftAt(u, video, before, start, i, completed, ids, checkpoint) && i < |u.pages| && next == i + 1
    requires PagesIn(u, more, next) && more == AfterPage(u, video, i, ids)
    requires ResumeCursor(moved, "comments", video) == CursorAt(u, next, completed + next - start)
    ensures LeftAt(u, video, before, start, next, completed, more, moved)
  {
  }

  lemma NextWalk(u: Upstream, walks: seq<Thread>, n: nat, small: set<string>, large: set<string>)
    requires n < |walks| && WalksDone(u, walks, n, small)
    requires small + u.ReplyIds(walks[n].top) <= large
    ensures WalksDone(u, walks, n + 1, large)
  {
  }

  /** The checkpoint's cursor opens a page that only a complete page i may precede. */
  ghost predicate MovesPast(u: Upstream, video: string, i: nat, checkpoint: Checkpoint)
    requires i < |u.pages|
  {
    forall ids :: PagesIn(u, ids, i + 1) ==> SafeCursor(u, video, ids, checkpoint)
  }

  /** A page is complete once its rows are stored and each of its traversals is finished. */
  lemma PageComplete(u: Upstream, video: string, ids: set<string>, i: nat)
    requires u.Complete() && i < |u.pages| && PagesIn(u, ids, i)
    requires RowIds(PageRows(video, u.pages[i])) <= ids
    requires WalksDone(u, PageTraversals(u.pages[i]), |PageTraversals(u.pages[i])|, ids)
    ensures PagesIn(u, ids, i + 1)
  {
    var threads := u.pages[i];
    PageRowsContent(video, threads);
    forall j | 0 <= j < |threads| ensures ThreadIn(u, ids, threads[j]) {
      var thread := threads[j];
      if thread.top != "" {
        assert u.Served(thread);
        ThreadComplete(u, video, ids, thread);
      }
    }
  }

  lemma ThreadComplete(u: Upstream, video: string, ids: set<string>, thread: Thread)
    requires u.Served(thread) && thread.top != ""
    requires forall row :: row in ThreadRows(video, thread) ==> row.id in ids
    requires NeedsTraversal(thread) ==> u.ReplyIds(thread.top) <= ids
    ensures ThreadIn(u, ids, thread)
  {
    assert ThreadRows(video, thread)[0].id == thread.top;
    ThreadYieldComplete(u, video, thread);
    assert ThreadYield(u, video, thread) <= ids;
  }

  lemma PageRowsGenuine(u: Upstream, video: string, i: nat)
    requires u.Complete() && i < |u.pages|
    ensures AllGenuine(u, video, PageRows(video, u.pages[i]))
    ensures forall thread :: thread in PageTraversals(u.pages[i]) ==>
              thread.top != "" && u.HasThread(thread.top, thread.id)
  {
    PageRowsContent(video, u.pages[i]);
    forall j | 0 <= j < |u.pages[i]| ensures AllGenuine(u, video, ThreadRows(video, u.pages[i][j])) {
      ThreadRowsGenuine(u, video, i, j);
    }
  }

  class CommentCollector {
    const upstream: Upstream
    const video: string
    var stored: map<string, CommentRow>  // the comments table
    var durable: Checkpoint              // job.checkpoint in the database
    var active: Checkpoint               // the worker's in-memory checkpoint
    var faults: seq<Fault>               // what the outside world will do next
    var partialErrors: nat
    var written: nat                     // comment upserts committed so far

    ghost predicate Valid()
      reads this
    {
      Sound(upstream, video, stored, durable, active)
    }

    constructor (upstream: Upstream, video: string)
      requires upstream.Complete()
      ensures Valid()
      ensures this.upstream == upstream && this.video == video && stored == map[] && durable == map[]
    {
      this.upstream, this.video := upstream, video;
      stored, durable, active := map[], map[], map[];
      faults, partialErrors, written := [], 0, 0;
    }

    method NextFault() returns (fault: Fault)
      modifies this`faults
      ensures old(faults) == [] ==> fault == Fine && faults == []
      ensures old(faults) != [] ==> fault == old(faults)[0] && faults == old(faults)[1..]
    {
      if faults == [] {
        fault := Fine;
      } else {
        fault, faults := faults[0], faults[1..];
      }
    }

    /** One transaction: upsert the page and, when given, the checkpoint; then advance the
        in-memory cursor. Either everything commits or nothing does. */
    method PersistCommentPage(rows: seq<CommentRow>, checkpoint: Option<Checkpoint>) returns (outcome: Outcome)
      requires Valid()
      requires AllGenuine(upstream, video, rows)
      requires checkpoint.Some? ==> SafeCursor(upstream, video, stored.Keys + RowIds(rows), checkpoint.value)
      modifies this
      ensures Valid() && partialErrors == old(partialErrors)
      ensures old(faults) == [] ==> outcome.Returned? && faults == []
      ensures outcome.Raised? ==>
        stored == old(stored) && durable == old(durable) && active == old(active) && written == old(written)
      ensures outcome.Returned? ==>
        && outcome.count == |rows| && written == old(written) + |rows|
        && stored.Keys == old(stored.Keys) + RowIds(rows)
        && durable == (if checkpoint.Some? then checkpoint.value else old(durable))
        && active == (if checkpoint.Some? then checkpoint.value else old(active))
    {
      var fault := NextFault();
      if fault != Fine {
        return Raised(fault);
      }
      var table := stored;
      for i := 0 to |rows|
        invariant forall id :: id in table ==> table[id].id == id && Genuine(upstream, video, table[id])
        invariant table.Keys == stored.Keys + RowIds(rows[..i])
      {
        table := table[rows[i].id := rows[i]];
        assert rows[..i + 1] == rows[..i] + [rows[i]];
      }
      assert rows[..|rows|] == rows;
      SafeCursorGrows(upstream, video, stored.Keys, table.Keys, durable);
      SafeCursorGrows(upstream, video, stored.Keys, table.Keys, active);
      stored := table;
      written := written + |rows|;
      if checkpoint.Some? {
        durable, active := checkpoint.value, checkpoint.value;
      }
      outcome := Returned(|rows|);
    }

    /** Fetches one reply page and commits it, with the given checkpoint if there is one. */
    method CollectReplyPage(threadId: string, parent: string, page: nat, checkpoint: Option<Checkpoint>)
      returns (outcome: Outcome)
      requires Valid()
      requires parent != "" && upstream.HasThread(parent, threadId) && page < |upstream.RepliesOf(parent)|
      requires checkpoint.Some? ==>
        SafeCursor(upstream, video,
                   stored.Keys + RowIds(ReplyRows(video, threadId, parent, upstream.RepliesOf(parent)[page])), checkpoint.value)
      modifies this
      ensures Valid() && partialErrors == old(partialErrors)
      ensures old(faults) == [] ==> outcome.Returned? && faults == []
      ensures outcome.Raised? ==>
        stored == old(stored) && durable == old(durable) && active == old(active) && written == old(written)
      ensures outcome.Returned? ==>
        && written == old(written) + outcome.count
        && stored.Keys == old(stored.Keys) + RowIds(ReplyRows(video, threadId, parent, upstream.RepliesOf(parent)[page]))
        && durable == (if checkpoint.Some? then checkpoint.value else old(durable))
        && active == (if checkpoint.Some? then checkpoint.value else old(active))
    {
      var fault := NextFault();
      if fault != Fine {
        return Raised(fault);
      }
      var rows := ReplyRows(video, threadId, parent, upstream.RepliesOf(parent)[page]);
      ReplyRowsGenuine(upstream, video, threadId, parent, page);
      outcome := Returned(0);
      if rows != [] || checkpoint.Some? {
        outcome := PersistCommentPage(rows, checkpoint);
      }
    }

    /** Walks every reply page of one top-level comment. The final checkpoint commits with the
        last reply page and with no earlier one. */
    method CollectRemainingReplies(threadId: string, parent: string, finalCheckpoint: Option<Checkpoint>)
      returns (outcome: Outcome)
      requires Valid()
      requires parent != "" && upstream.HasThread(parent, threadId)
      requires finalCheckpoint.Some? ==>
        SafeCursor(upstream, video, stored.Keys + upstream.ReplyIds(parent), finalCheckpoint.value)
      modifies this
      ensures Valid() && partialErrors == old(partialErrors)
      ensures old(faults) == [] ==> outcome.Returned? && faults == []
      ensures old(stored.Keys) <= stored.Keys
      ensures outcome.Raised? ==> durable == old(durable) && active == old(active)
      ensures outcome.Returned? ==>
        && written == old(written) + outcome.count
        && stored.Keys == old(stored.Keys) + upstream.ReplyIds(parent)
        && durable == (if finalCheckpoint.Some? then finalCheckpoint.value else old(durable))
        && active == (if finalCheckpoint.Some? then finalCheckpoint.value else old(active))
    {
      var pages := upstream.RepliesOf(parent);
      var count: nat := 0;
      var page := 0;
      while true
        invariant 0 <= page < |pages|
        invariant Valid() && partialErrors == old(partialErrors)
        invariant old(faults) == [] ==> faults == []
        invariant durable == old(durable) && active == old(active) && written == old(written) + count
        invariant stored.Keys == old(stored.Keys) + IdsThrough(pages, page)
        decreases |pages| - page
      {
        NextReplyPage(video, threadId, parent, pages, page, old(stored.Keys));
        var last := page + 1 == |pages|;
        var checkpoint := if last then finalCheckpoint else None;
        outcome := CollectReplyPage(threadId, parent, page, checkpoint);
        if outcome.Raised? {
          return;
        }
        count := count + outcome.count;
        if last {
          return Returned(count);
        }
        page := page + 1;
      }
    }

    /** The reply traversals of one thread page, in order; the checkpoint goes with the last. */
    method CollectTraversals(i: nat, checkpoint: Checkpoint) returns (outcome: Outcome)
      requires Valid()
      requires i < |upstream.pages| && PagesIn(upstream, stored.Keys, i)
      requires RowIds(PageRows(video, upstream.pages[i])) <= stored.Keys
      requires PageTraversals(upstream.pages[i]) != []
      requires MovesPast(upstream, video, i, checkpoint)
      modifies this
      ensures Valid() && partialErrors == old(partialErrors)
      ensures old(faults) == [] ==> outcome.Returned? && faults == []
      ensures old(stored.Keys) <= stored.Keys
      ensures outcome.Raised? ==> durable == old(durable) && active == old(active)
      ensures outcome.Returned? ==>
        && written == old(written) + outcome.count
        && PagesIn(upstream, stored.Keys, i + 1)
        && stored.Keys == AfterWalks(upstream, PageTraversals(upstream.pages[i]), |PageTraversals(upstream.pages[i])|,
          old(stored.Keys))
        && durable == active == checkpoint
    {
      var walks := PageTraversals(upstream.pages[i]);
      PageRowsGenuine(upstream, video, i);
      var count: nat := 0;
      for t := 0 to |walks|
        invariant Valid() && partialErrors == old(partialErrors)
        invariant old(faults) == [] ==> faults == []
        invariant old(stored.Keys) <= stored.Keys == AfterWalks(upstream, walks, t, old(stored.Keys))
        invariant written == old(written) + count
        invariant WalksDone(upstream, walks, t, stored.Keys)
        invariant if t < |walks| then durable == old(durable) && active == old(active)
                  else durable == active == checkpoint
      {
        var last := t == |walks| - 1;
        assert walks[t] in walks;
        ghost var complete := stored.Keys + upstream.ReplyIds(walks[t].top);
        NextWalk(upstream, walks, t, stored.Keys, complete);
        if last {
          PagesInGrows(upstream, old(stored.Keys), complete, i);
          PageComplete(upstream, video, complete, i);
        }
        outcome := CollectRemainingReplies(walks[t].id, walks[t].top, if last then Some(checkpoint) else None);
        if outcome.Raised? {
          return;
        }
        count := count + outcome.count;
      }
      PagesInGrows(upstream, old(stored.Keys), stored.Keys, i);
      PageComplete(upstream, video, stored.Keys, i);
      outcome := Returned(count);
    }

    /** Commits one thread page: its rows, then every reply traversal it needs. The checkpoint
        that moves past the page commits only with the last piece of data the page requires. */
    method CollectThreadPage(i: nat, checkpoint: Checkpoint) returns (outcome: Outcome)
      requires Valid()
      requires i < |upstream.pages| && PagesIn(upstream, stored.Keys, i)
      requires MovesPast(upstream, video, i, checkpoint)
      modifies this
      ensures Valid() && partialErrors == old(partialErrors)
      ensures old(faults) == [] ==> outcome.Returned? && faults == []
      ensures old(stored.Keys) <= stored.Keys
      ensures outcome.Raised? ==> durable == old(durable) && active == old(active)
      ensures outcome.Returned? ==>
        && written == old(written) + outcome.count
        && PagesIn(upstream, stored.Keys, i + 1)
        && stored.Keys == AfterPage(upstream, video, i, old(stored.Keys))
        && durable == active == checkpoint
    {
      var rows := PageRows(video, upstream.pages[i]);
      var walks := PageTraversals(upstream.pages[i]);
      PageRowsGenuine(upstream, video, i);
      PagesInGrows(upstream, stored.Keys, stored.Keys + RowIds(rows), i);
      if walks == [] {
        PageComplete(upstream, video, stored.Keys + RowIds(rows), i);
      }
      if rows == [] {
        assert stored.Keys + RowIds(rows) == stored.Keys;
      }
      // A page without rows has no traversals either; it still moves the cursor.
      outcome := Returned(0);
      if rows != [] {
        outcome := PersistCommentPage(rows, if walks == [] then Some(checkpoint) else None);
      }
      if outcome.Returned? && walks != [] {
        var count := outcome.count;
        outcome := CollectTraversals(i, checkpoint);
        if outcome.Returned? {
          outcome := Returned(count + outcome.count);
        }
      }
      if outcome.Returned? && rows == [] && walks == [] {
        outcome := PersistCommentPage([], Some(checkpoint));
      }
    }

    /** The number of pages a run may still fetch, from the page cap and the pages already done. */
    function Budget(maxPages: Option<int>, completed: int): nat {
      match maxPages
      case None => |upstream.pages|
      case Some(cap) => if cap > completed then cap - completed else 0
    }

    /** The limit a walk from page `start` has: its page cap, or the end of the comments. */
    function Limit(start: nat, maxPages: Option<int>, completed: int): (limit: nat)
      requires start < |upstream.pages|
      ensures start <= limit <= |upstream.pages|
    {
      var reached := start + Budget(maxPages, completed);
      if reached < |upstream.pages| then reached else |upstream.pages|
    }

    /** Fetches and commits the next thread page, with the cursor that follows it. */
    method CollectNextPage(i: nat, page: int) returns (turn: PageTurn)
      requires Valid() && i < |upstream.pages| && PagesIn(upstream, stored.Keys, i)
      modifies this
      ensures Valid()
      ensures old(faults) == [] ==> turn.Collected? && faults == []
      ensures old(stored.Keys) <= stored.Keys
      ensures partialErrors == old(partialErrors) + if turn.Disabled? then 1 else 0
      ensures !turn.Collected? ==> durable == old(durable) && active == old(active)
      ensures turn.Disabled? ==> stored == old(stored) && written == old(written)
      ensures turn.Collected? ==>
        && written == old(written) + turn.count
        && turn.allKnown == AllKnown(upstream, old(stored.Keys), i)
        && PagesIn(upstream, stored.Keys, i + 1)
        && stored.Keys == AfterPage(upstream, video, i, old(stored.Keys))
        && durable == active
        && ResumeCursor(durable, "comments", video) == CursorAt(upstream, i + 1, page)
    {
      var fault := NextFault();
      if fault == Unavailable {
        partialErrors := partialErrors + 1;
        return Disabled;
      }
      if fault != Fine {
        return Failed(fault);
      }
      var listed := ListedIds(upstream.pages[i]);
      var allKnown := listed != {} && listed <= stored.Keys;
      var next := if i + 1 < |upstream.pages| then Some(i + 1) else None;
      var checkpoint := CheckpointPayload(active, "comments", video, next, page);
      CursorRoundTrip(active, "comments", video, next, page, "comments", video);
      var outcome := CollectThreadPage(i, checkpoint);
      turn := match outcome case Raised(f) => Failed(f) case Returned(count) => Collected(count, allKnown);
    }

    /** The next page, and whether the walk ends with it. */
    method CollectAndDecide(i: nat, next: nat, page: int, incremental: bool, ghost before: set<string>, ghost start: nat,
                            ghost completed: int, ghost limit: nat)
      returns (turn: PageTurn, last: bool)
      requires Valid() && LeftAt(upstream, video, before, start, i, completed, stored.Keys, durable)
      requires i < limit <= |upstream.pages| && next == i + 1 && page == completed + next - start
      modifies this
      ensures Valid() && old(stored.Keys) <= stored.Keys
      ensures old(faults) == [] ==> turn.Collected? && faults == []
      ensures partialErrors == old(partialErrors) + if turn.Disabled? then 1 else 0
      ensures turn.Disabled? ==> written == old(written)
      ensures turn.Collected? ==>
        && written == old(written) + turn.count
        && LeftAt(upstream, video, before, start, next, completed, stored.Keys, durable)
        && WalkEnd(upstream, video, old(stored.Keys), i, limit, incremental)
           == (if last then next else WalkEnd(upstream, video, stored.Keys, next, limit, incremental))
        && (!last ==> next < |upstream.pages|)
    {
      ghost var ids, checkpoint := stored.Keys, durable;
      turn := CollectNextPage(i, page);
      last := false;
      if turn.Collected? {
        last := (incremental && turn.allKnown) || next == |upstream.pages|;
        OnePageMore(upstream, video, before, start, i, next, completed, ids, checkpoint, stored.Keys, durable);
      }
    }

    /** One call of _collect_comments: resume from the job's cursor and walk the thread pages. */
    method CollectComments(job: Checkpoint, maxPages: Option<int>, incremental: bool) returns (outcome: Outcome)
      requires Valid() && SafeCursor(upstream, video, stored.Keys, job)
      modifies this
      ensures Valid()
      ensures old(stored.Keys) <= stored.Keys
      ensures old(faults) == [] ==> outcome.Returned? && faults == [] && partialErrors == old(partialErrors)
      ensures outcome.Returned? ==> written == old(written) + outcome.count
      // An undisturbed run stores exactly the pages from the resumed cursor to its end, and leaves
      // the cursor there.
      ensures outcome.Returned? && partialErrors == old(partialErrors) ==>
        var (token, completed) := ResumeCursor(job, "comments", video);
        var start := token.GetOr(0);
        var end := WalkEnd(upstream, video, old(stored.Keys), start, Limit(start, maxPages, completed), incremental);
        LeftAt(upstream, video, old(stored.Keys), start, end, completed, stored.Keys, durable)
    {
      var (token, completed) := ResumeCursor(job, "comments", video);
      var i := token.GetOr(0);
      var page := completed;
      var count: nat := 0;
      ghost var start := i;
      ghost var limit := Limit(start, maxPages, completed);
      ghost var end := WalkEnd(upstream, video, stored.Keys, start, limit, incremental);
      while maxPages.None? || page < maxPages.value
        invariant Valid() && partialErrors == old(partialErrors)
        invariant old(faults) == [] ==> faults == []
        invariant start <= i <= limit && i < |upstream.pages| && old(stored.Keys) <= stored.Keys
        invariant written == old(written) + count && page == completed + (i - start)
        invariant LeftAt(upstream, video, old(stored.Keys), start, i, completed, stored.Keys, durable)
        invariant end == WalkEnd(upstream, video, stored.Keys, i, limit, incremental)
        decreases |upstream.pages| - i
      {
        page := page + 1;
        var next := i + 1;
        var turn, last := CollectAndDecide(i, next, page, incremental, old(stored.Keys), start, completed, limit);
        match turn
        case Disabled => return Returned(count);
        case Failed(fault) => return Raised(fault);
        case Collected(more, _) =>
          count := count + more;
          if last {
            return Returned(count);
          }
          i := next;
      }
      outcome := Returned(count);
    }

    /** Writes a checkpoint to the job row, unless the write itself fails. */
    method SaveCheckpoint(checkpoint: Checkpoint) returns (fault: Fault)
      requires Valid() && SafeCursor(upstream, video, stored.Keys, checkpoint)
      modifies this`durable, this`active, this`faults
      ensures Valid()
      ensures old(faults) == [] ==> fault == Fine && faults == []
      ensures fault == Fine ==> durable == active == checkpoint
      ensures fault != Fine ==> durable == old(durable) && active == old(active)
    {
      fault := NextFault();
      if fault == Fine {
        durable, active := checkpoint, checkpoint;
      }
    }

    /** What the worker records when collection raises: an API error re-saves the in-memory
        checkpoint, counting a quota retry; a crash records nothing. */
    method RecordInterruption(fault: Fault)
      requires Valid()
      modifies this`durable, this`active
      ensures Valid()
      ensures fault == Crash ==> durable == old(durable) && active == old(active)
      ensures fault != Crash ==> forall stage, scope ::
        ResumeCursor(durable, stage, scope) == ResumeCursor(old(active), stage, scope)
    {
      if fault != Crash {
        if fault == ApiError(true) {
          forall stage, scope
            ensures ResumeCursor(Apply(active, QuotaRetry), stage, scope) == ResumeCursor(active, stage, scope)
          {
            ProgressKeepsCursor(active, QuotaRetry, stage, scope);
          }
          active := Apply(active, QuotaRetry);
        }
        durable := active;
      }
    }

    /** One claimed run of a video job. Its own bookkeeping overwrites the durable comment
        cursor before the walk starts, so the walk resumes from the cursor read at claim time. */
    method RunVideoJob(maxPages: Option<int>, incremental: bool, advertised: nat) returns (outcome: JobOutcome)
      requires Valid()
      modifies this
      ensures Valid()
      ensures old(stored.Keys) <= stored.Keys
      ensures old(faults) == [] ==> outcome in {Finished, Skipped}
      ensures outcome == Finished && maxPages.None? && !incremental ==> upstream.AllIds() <= stored.Keys
      ensures outcome == Skipped ==> stored == old(stored) && |stored| >= advertised
      ensures old(faults) == [] ==> (outcome == Skipped <==> |old(stored)| >= advertised)
    {
      var job := durable;
      OtherKeysKeepCursor(job, "youtubeVideoId", Text(video), "comments", video);
      active := job["youtubeVideoId" := Text(video)];
      var fault := NextFault();
      if fault == Fine {
        fault := RecordDetails();
      }
      if fault != Fine {
        RecordInterruption(fault);
        return Interrupted;
      }
      if |stored| >= advertised {
        outcome := Skipped;
      } else {
        fault := RecordCollecting();
        if fault != Fine {
          RecordInterruption(fault);
          return Interrupted;
        }
        var errors := partialErrors;
        var walked := CollectComments(job, maxPages, incremental);
        if walked.Raised? {
          RecordInterruption(walked.fault);
          return Interrupted;
        }
        outcome := if partialErrors == errors then Finished else CommentsUnavailable;
        if outcome == Finished && maxPages.None? && !incremental {
          AllPagesAreAllIds(upstream, stored.Keys);
        }
      }
      fault := RecordCompletion();
      if fault != Fine {
        RecordInterruption(fault);
        return Interrupted;
      }
    }

    /** The checkpoint writes made while the video's details are fetched. */
    method RecordDetails() returns (fault: Fault)
      requires Valid()
      modifies this`durable, this`active, this`faults
      ensures Valid()
      ensures old(faults) == [] ==> fault == Fine && faults == []
    {
      CursorRoundTrip(active, "video_details", "videos", None, 1, "comments", video);
      fault := SaveCheckpoint(CheckpointPayload(active, "video_details", "videos", None, 1));
      if fault == Fine {
        ProgressKeepsCursor(active, Progress("videos", 1, Some(1)), "comments", video);
        fault := SaveCheckpoint(WithPhaseProgress(active, "videos", 1, Some(1)));
      }
    }

    /** The checkpoint write made when the walk is about to start. */
    method RecordCollecting() returns (fault: Fault)
      requires Valid()
      modifies this`durable, this`active, this`faults
      ensures Valid()
      ensures old(faults) == [] ==> fault == Fine && faults == []
    {
      ProgressKeepsCursor(active, Progress("comments", 0, Some(1)), "comments", video);
      fault := SaveCheckpoint(WithPhaseProgress(active, "comments", 0, Some(1)));
    }

    /** The checkpoint writes that close a finished run. */
    method RecordCompletion() returns (fault: Fault)
      requires Valid()
      modifies this`durable, this`active, this`faults
      ensures Valid()
      ensures old(faults) == [] ==> fault == Fine && faults == []
    {
      ProgressKeepsCursor(active, Progress("comments", 1, Some(1)), "comments", video);
      fault := SaveCheckpoint(WithPhaseProgress(active, "comments", 1, Some(1)));
      if fault == Fine {
        CursorRoundTrip(active, "completed", video, None, 1, "comments", video);
        fault := SaveCheckpoint(CheckpointPayload(active, "completed", video, None, 1));
      }
    }

    /** Any number of runs, each capped, incremental or interrupted anywhere, followed by one
        uninterrupted full run. The full run brings the store to exactly the public comments of the
        video, unless it is skipped: when as many comments are stored as the video advertises, and
        they are not all there are. */
    method CollectAcrossRuns(attempts: seq<Attempt>, advertised: nat) returns (ghost before: set<string>)
      requires Valid()
      modifies this
      ensures Valid()
      ensures before <= stored.Keys <= upstream.AllIds() && (attempts == [] ==> before == old(stored.Keys))
      ensures |before| >= advertised ==> stored.Keys == before
      ensures stored.Keys == upstream.AllIds() <==> |before| < advertised || before == upstream.AllIds()
    {
      for a := 0 to |attempts|
        invariant Valid() && (a == 0 ==> stored == old(stored))
      {
        faults := attempts[a].faults;
        var _ := RunVideoJob(attempts[a].maxPages, attempts[a].incremental, attempts[a].advertised);
      }
      faults := [];
      before := stored.Keys;
      assert |before| == |stored|;
      var outcome := RunVideoJob(None, false, advertised);
      forall id | id in stored ensures id in upstream.AllIds() {
        GenuineIsPublic(upstream, video, stored[id]);
      }
    }
  }

  /** An accurate count, or one that is too high, never skips a comment. */
  method CollectWithAccurateCount(c: CommentCollector, attempts: seq<Attempt>, advertised: nat)
    requires c.Valid() && advertised >= |c.upstream.AllIds()|
    modifies c
    ensures c.Valid() && c.stored.Keys == c.upstream.AllIds()
  {
    ghost var before := c.CollectAcrossRuns(attempts, advertised);
    if |before| >= advertised {
      FullSubset(before, c.upstream.AllIds());
    }
  }

  /** A video with a single comment. */
  const ONE_COMMENT := Upstream([[Thread("thread", "comment", [], 0)]], map[])

  lemma OneCommentIsPublic()
    ensures ONE_COMMENT.Complete() && "comment" in ONE_COMMENT.AllIds()
  {
    assert ONE_COMMENT.pages[0][0].top == "comment";
    assert ONE_COMMENT.RepliesOf("comment") == [[]];
  }

  /** A count that lags behind: the video advertises no comment yet, and its one comment is skipped. */
  method LaggingCountSkipsComments() returns (c: CommentCollector)
    ensures c.stored == map[] && c.upstream.AllIds() != {}
  {
    OneCommentIsPublic();
    c := new CommentCollector(ONE_COMMENT, "video");
    ghost var before := c.CollectAcrossRuns([], 0);
    assert before == {};
  }
}
