/** Listing a channel's uploads: _channel_video_ids in
    apps/worker/monitube_worker/collection/discovery.py. */
module Discovery {
  import opened Common

  /** The uploads playlist, newest first, as a fixed list of items; an empty id is an item the
      provider sent without one. `served` says how many items a request for at most `m` of them
      gets when it starts at `from`. */
  datatype Playlist = Playlist(items: seq<string>, served: (nat, nat) -> nat)

  ghost predicate ServesPages(p: Playlist) {
    forall from: nat, m: nat :: from < |p.items| && m > 0 ==>
      1 <= p.served(from, m) <= m && from + p.served(from, m) <= |p.items|
  }

  /** Adds an id unless it is missing or already there. */
  function Add(ids: seq<string>, id: string): seq<string> {
    if id == "" || id in ids then ids else ids + [id]
  }

  /** The ids in order of first appearance. */
  function Distinct(items: seq<string>): seq<string> {
    if items == [] then [] else Add(Distinct(items[..|items| - 1]), items[|items| - 1])
  }

  ghost predicate Clean(ids: seq<string>) {
    NoDuplicates(ids) && "" !in ids
  }

  lemma {:induction false} DistinctIs(items: seq<string>)
    ensures Clean(Distinct(items))
    ensures forall v :: v in Distinct(items) <==> v in items && v != ""
  {
    if items != [] {
      var n := |items| - 1;
      DistinctIs(items[..n]);
      assert items == items[..n] + [items[n]];
    }
  }

  ghost function Uploads(p: Playlist): set<string> {
    set v | v in p.items && v != ""
  }

  function UpTo(ids: seq<string>, limit: Option<nat>): seq<string> {
    if limit.Some? && limit.value < |ids| then ids[..limit.value] else ids
  }

  lemma {:induction false} DistinctGrows(items: seq<string>, n: nat)
    requires n <= |items|
    ensures Distinct(items[..n]) <= Distinct(items)
  {
    if n < |items| {
      var last := |items| - 1;
      DistinctGrows(items[..last], n);
      assert items[..last][..n] == items[..n];
    } else {
      assert items[..n] == items;
    }
  }

  /** Once `limit` ids are found, the rest of the playlist cannot change the answer. */
  lemma LimitSettles(items: seq<string>, n: nat, limit: nat)
    requires n <= |items| && |Distinct(items[..n])| >= limit
    ensures UpTo(Distinct(items), Some(limit)) == UpTo(Distinct(items[..n]), Some(limit))
  {
    DistinctGrows(items, n);
  }

  function Reversed(s: seq<string>): (r: seq<string>)
    ensures |r| == |s|
    ensures forall i :: 0 <= i < |s| ==> r[i] == s[|s| - 1 - i]
  {
    seq(|s|, i requires 0 <= i < |s| => s[|s| - 1 - i])
  }

  lemma ReversedKeeps(s: seq<string>)
    ensures NoDuplicates(s) ==> NoDuplicates(Reversed(s))
    ensures forall v :: v in Reversed(s) <==> v in s
  {
    forall v ensures v in Reversed(s) <==> v in s {
      if v in s {
        var i :| 0 <= i < |s| && s[i] == v;
        assert Reversed(s)[|s| - 1 - i] == v;
      }
    }
  }

  datatype Request = Request(collectAll: bool, limit: nat, incremental: bool, advertised: int)

  predicate BackfillRequired(r: Request, storedOfChannel: set<string>) {
    r.collectAll && r.advertised > |storedOfChannel|
  }

  function PageSize(r: Request, found: nat): nat {
    if r.collectAll then 50 else if found >= r.limit then 0 else if r.limit - found < 50 then r.limit - found else 50
  }

  function Limit(r: Request): Option<nat> {
    if r.collectAll then None else Some(r.limit)
  }

  /** A page that holds videos, all of them stored: on a healthy refresh nothing older is new. */
  predicate KnownPage(page: seq<string>, stored: set<string>) {
    Distinct(page) != [] && forall v :: v in Distinct(page) ==> v in stored
  }

  predicate MayStopEarly(r: Request, storedOfChannel: set<string>) {
    r.incremental && r.collectAll && !BackfillRequired(r, storedOfChannel)
  }

  /** The page a token opens; after the last item the provider answers with an empty one. */
  function PageAt(p: Playlist, from: nat, m: nat): (page: seq<string>)
    requires ServesPages(p) && m > 0
    ensures from < |p.items| ==> 0 < |page| <= |p.items| - from
    ensures from >= |p.items| ==> page == []
  {
    if from < |p.items| then p.items[from..from + p.served(from, m)] else []
  }

  datatype Turn = Turn(found: seq<string>, next: nat, last: bool)

  /** What one page does to the ids found so far. */
  ghost function TakePage(p: Playlist, r: Request, stored: set<string>, mayStop: bool, from: nat, ids: seq<string>): Turn
    requires ServesPages(p) && (r.collectAll || |ids| < r.limit)
  {
    var page := PageAt(p, from, PageSize(r, |ids|));
    var next := from + |page|;
    Turn(UpTo(Distinct(ids + page), Limit(r)), next, next >= |p.items| || (mayStop && KnownPage(page, stored)))
  }

  /** The ids found from position `from` on, on top of those found before it. */
  ghost function Walk(p: Playlist, r: Request, stored: set<string>, mayStop: bool, from: nat, ids: seq<string>): seq<string>
    requires ServesPages(p)
    decreases |p.items| - from
  {
    if !r.collectAll && |ids| >= r.limit then ids
    else
      var turn := TakePage(p, r, stored, mayStop, from, ids);
      if turn.last then turn.found else Walk(p, r, stored, mayStop, turn.next, turn.found)
  }

  lemma DistinctStep(items: seq<string>, item: string)
    ensures Distinct(items + [item]) == Add(Distinct(items), item)
  {
    assert (items + [item])[..|items|] == items;
  }

  lemma {:induction false} DistinctOfDistinct(ids: seq<string>)
    requires Clean(ids)
    ensures Distinct(ids) == ids
  {
    if ids != [] {
      var n := |ids| - 1;
      DistinctOfDistinct(ids[..n]);
      assert ids == ids[..n] + [ids[n]];
      DistinctStep(ids[..n], ids[n]);
    }
  }

  /** Appending page by page is appending all at once. */
  lemma {:induction false} DistinctJoins(a: seq<string>, b: seq<string>)
    ensures Distinct(Distinct(a) + b) == Distinct(a + b)
  {
    if b == [] {
      assert a + b == a && Distinct(a) + b == Distinct(a);
      DistinctIs(a);
      DistinctOfDistinct(Distinct(a));
    } else {
      var n := |b| - 1;
      DistinctJoins(a, b[..n]);
      assert a + b == (a + b[..n]) + [b[n]];
      assert Distinct(a) + b == (Distinct(a) + b[..n]) + [b[n]];
      DistinctStep(a + b[..n], b[n]);
      DistinctStep(Distinct(a) + b[..n], b[n]);
    }
  }

  /** One page: new ids are appended until the limit is reached. */
  method AppendNew(before: seq<string>, page: seq<string>, limit: Option<nat>) returns (ids: seq<string>, pageIds: seq<string>)
    requires Clean(before) && (limit.Some? ==> |before| < limit.value)
    ensures ids == UpTo(Distinct(before + page), limit)
    ensures limit.None? ==> pageIds == Distinct(page)
    ensures forall v :: v in ids <==> v in before || v in pageIds
  {
    ids, pageIds := before, [];
    assert before + page[..0] == before;
    DistinctOfDistinct(before);
    for i := 0 to |page|
      invariant ids == Distinct(before + page[..i])
      invariant pageIds == Distinct(page[..i])
      invariant forall v :: v in ids <==> v in before || v in pageIds
      invariant limit.Some? ==> |ids| < limit.value
    {
      var id := page[i];
      PrefixStep(before, page, i);
      if id != "" && id !in pageIds {
        pageIds := pageIds + [id];
      }
      if id != "" && id !in ids {
        ids := ids + [id];
        if limit.Some? && |ids| >= limit.value {
          StopsAtLimit(before, page, i + 1, limit.value);
          return;
        }
      }
    }
    assert page[..|page|] == page;
  }

  lemma PrefixStep(before: seq<string>, page: seq<string>, i: nat)
    requires i < |page|
    ensures Distinct(page[..i + 1]) == Add(Distinct(page[..i]), page[i])
    ensures Distinct(before + page[..i + 1]) == Add(Distinct(before + page[..i]), page[i])
  {
    assert page[..i + 1] == page[..i] + [page[i]];
    assert before + page[..i + 1] == before + page[..i] + [page[i]];
    DistinctStep(page[..i], page[i]);
    DistinctStep(before + page[..i], page[i]);
  }

  lemma StopsAtLimit(before: seq<string>, page: seq<string>, n: nat, limit: nat)
    requires n <= |page| && |Distinct(before + page[..n])| == limit
    ensures UpTo(Distinct(before + page), Some(limit)) == Distinct(before + page[..n])
  {
    assert (before + page)[..|before| + n] == before + page[..n];
    LimitSettles(before + page, |before| + n, limit);
  }

  lemma FoundIsClean(items: seq<string>, limit: Option<nat>)
    ensures Clean(UpTo(Distinct(items), limit))
  {
    DistinctIs(items);
  }

  function StoredOn(pageIds: seq<string>, stored: set<string>): set<string> {
    set v | v in pageIds && v in stored
  }

  /** The worker compares two counts; the ids of a page are distinct, so that decides it. */
  lemma CountsDecide(page: seq<string>, stored: set<string>)
    ensures (Distinct(page) != [] && |StoredOn(Distinct(page), stored)| == |Distinct(page)|) <==> KnownPage(page, stored)
  {
    var pageIds := Distinct(page);
    var existing := StoredOn(pageIds, stored);
    DistinctIs(page);
    DistinctLength(pageIds);
    assert existing <= Elements(pageIds);
    if |existing| == |pageIds| {
      FullSubset(existing, Elements(pageIds));
      assert forall v :: v in pageIds ==> v in Elements(pageIds);
    }
    if forall v :: v in pageIds ==> v in stored {
      assert existing == Elements(pageIds);
    }
  }

  method ReadPage(p: Playlist, r: Request, stored: set<string>, backfillRequired: bool, from: nat, ids: seq<string>)
      returns (found: seq<string>, existingOnPage: set<string>, next: nat, last: bool)
    requires ServesPages(p) && Clean(ids) && (r.collectAll || |ids| < r.limit)
    ensures Clean(found)
    ensures StoredOn(found, stored) == StoredOn(ids, stored) + existingOnPage
    ensures Turn(found, next, last) == TakePage(p, r, stored, r.incremental && r.collectAll && !backfillRequired, from, ids)
  {
    var page := PageAt(p, from, PageSize(r, |ids|));
    FoundIsClean(ids + page, Limit(r));
    CountsDecide(page, stored);
    var pageIds: seq<string>;
    found, pageIds := AppendNew(ids, page, Limit(r));
    existingOnPage := StoredOn(pageIds, stored);
    next := from + |page|;
    last := next >= |p.items|
            || (r.incremental && !backfillRequired && r.collectAll && pageIds != [] && |existingOnPage| == |pageIds|);
  }

  /** Reads the playlist page by page; stops at the limit, at the end, or on a healthy incremental
      refresh at the first page that holds only stored videos. A backfill works oldest first. */
  method ChannelVideoIds(p: Playlist, r: Request, stored: set<string>, storedOfChannel: set<string>)
      returns (ids: seq<string>, known: set<string>, backfillRequired: bool)
    requires ServesPages(p)
    ensures backfillRequired == BackfillRequired(r, storedOfChannel)
    ensures var walk := Walk(p, r, stored, MayStopEarly(r, storedOfChannel), 0, []);
            ids == if backfillRequired then Reversed(walk) else walk
    ensures known == StoredOn(ids, stored)
    ensures MissesNothing(p, r, stored, storedOfChannel, ids)
  {
    backfillRequired := r.collectAll && r.advertised > |storedOfChannel|;
    ids, known := [], {};
    var from: nat := 0;
    ghost var mayStop := MayStopEarly(r, storedOfChannel);
    ghost var walk := Walk(p, r, stored, mayStop, 0, []);
    while r.collectAll || |ids| < r.limit
      invariant Clean(ids) && known == StoredOn(ids, stored)
      invariant Walk(p, r, stored, mayStop, from, ids) == walk
      decreases |p.items| - from
    {
      var existingOnPage, last;
      ids, existingOnPage, from, last := ReadPage(p, r, stored, backfillRequired, from, ids);
      known := known + existingOnPage;
      if last {
        break;
      }
    }
    AccurateCountMissesNothing(p, r, stored, storedOfChannel);
    if backfillRequired {
      ReversedKeeps(ids);
      ids := Reversed(ids);
    }
  }

  /** Given a count that does not lag behind: each upload not stored at the start is returned, and none twice. */
  ghost predicate MissesNothing(p: Playlist, r: Request, stored: set<string>, storedOfChannel: set<string>, ids: seq<string>) {
    r.collectAll && storedOfChannel <= stored && storedOfChannel <= Uploads(p) && r.advertised >= |Uploads(p)| ==>
      && NoDuplicates(ids) && (forall v :: v in ids ==> v in Uploads(p))
      && forall v :: v in Uploads(p) && v !in stored ==> v in ids
  }

  lemma AccurateCountMissesNothing(p: Playlist, r: Request, stored: set<string>, storedOfChannel: set<string>)
    requires ServesPages(p)
    ensures MissesNothing(p, r, stored, storedOfChannel, Walk(p, r, stored, MayStopEarly(r, storedOfChannel), 0, []))
  {
    if r.collectAll && storedOfChannel <= stored && storedOfChannel <= Uploads(p) && r.advertised >= |Uploads(p)| {
      NothingIsMissed(p, r, stored, storedOfChannel);
    }
  }

  // ---- what the answer is good for ---------------------------------------------------

  /** A page on top of everything before it is everything up to its end. */
  lemma PageJoins(p: Playlist, from: nat, m: nat)
    requires ServesPages(p) && from <= |p.items| && m > 0
    ensures var page := PageAt(p, from, m);
            && from + |page| <= |p.items| && (from < |p.items| ==> |page| > 0)
            && Distinct(Distinct(p.items[..from]) + page) == Distinct(p.items[..from + |page|])
  {
    var page := PageAt(p, from, m);
    DistinctJoins(p.items[..from], page);
    assert p.items[..from] + page == p.items[..from + |page|];
  }

  lemma TurnAt(p: Playlist, r: Request, stored: set<string>, mayStop: bool, from: nat)
    requires ServesPages(p) && from <= |p.items|
    requires r.collectAll || |Distinct(p.items[..from])| < r.limit
    ensures var turn := TakePage(p, r, stored, mayStop, from, Distinct(p.items[..from]));
            && from <= turn.next <= |p.items| && (turn.last || from < turn.next)
            && turn.found == UpTo(Distinct(p.items[..turn.next]), Limit(r))
            && (turn.last ==> turn.next == |p.items| || mayStop)
  {
    PageJoins(p, from, PageSize(r, |Distinct(p.items[..from])|));
  }

  /** A limited listing is the first distinct uploads, however the provider pages them. */
  lemma {:induction false} LimitedWalk(p: Playlist, r: Request, stored: set<string>, from: nat)
    requires ServesPages(p) && !r.collectAll && from <= |p.items|
    ensures Walk(p, r, stored, false, from, UpTo(Distinct(p.items[..from]), Some(r.limit)))
            == UpTo(Distinct(p.items), Some(r.limit))
    decreases |p.items| - from
  {
    if |Distinct(p.items[..from])| >= r.limit {
      LimitSettles(p.items, from, r.limit);
    } else {
      TurnAt(p, r, stored, false, from);
      var turn := TakePage(p, r, stored, false, from, Distinct(p.items[..from]));
      if turn.last {
        assert p.items[..turn.next] == p.items;
      } else {
        LimitedWalk(p, r, stored, turn.next);
      }
    }
  }

  /** Without a limit the walk finds every upload, unless it stops early. */
  lemma {:induction false} FullWalk(p: Playlist, r: Request, stored: set<string>, mayStop: bool, from: nat)
      returns (end: nat)
    requires ServesPages(p) && r.collectAll && from <= |p.items|
    ensures from <= end <= |p.items|
    ensures Walk(p, r, stored, mayStop, from, Distinct(p.items[..from])) == Distinct(p.items[..end])
    ensures end == |p.items| || mayStop
    decreases |p.items| - from
  {
    TurnAt(p, r, stored, mayStop, from);
    var turn := TakePage(p, r, stored, mayStop, from, Distinct(p.items[..from]));
    end := turn.next;
    if !turn.last {
      end := FullWalk(p, r, stored, mayStop, turn.next);
    }
  }

  /** Early stop misses nothing: if every stored video of the channel is in the playlist and the
      advertised count is at least the playlist's size, each upload not stored at the start is returned, once. */
  lemma NothingIsMissed(p: Playlist, r: Request, stored: set<string>, storedOfChannel: set<string>)
    requires ServesPages(p) && r.collectAll
    requires storedOfChannel <= stored && storedOfChannel <= Uploads(p) && r.advertised >= |Uploads(p)|
    ensures var ids := Walk(p, r, stored, MayStopEarly(r, storedOfChannel), 0, []);
            && Clean(ids) && (forall v :: v in ids ==> v in Uploads(p))
            && forall v :: v in Uploads(p) && v !in stored ==> v in ids
  {
    assert p.items[..0] == [];
    var end := FullWalk(p, r, stored, MayStopEarly(r, storedOfChannel), 0);
    DistinctIs(p.items[..end]);
    if end == |p.items| {
      assert p.items[..end] == p.items;
    } else {
      FullSubset(storedOfChannel, Uploads(p));
    }
  }

  /** A backfill is never cut short: with fewer stored than advertised, every upload is returned. */
  lemma BackfillSeesEverything(p: Playlist, r: Request, stored: set<string>, storedOfChannel: set<string>)
    requires ServesPages(p) && r.collectAll && (BackfillRequired(r, storedOfChannel) || !r.incremental)
    ensures Walk(p, r, stored, MayStopEarly(r, storedOfChannel), 0, []) == Distinct(p.items)
  {
    assert p.items[..0] == [];
    var end := FullWalk(p, r, stored, MayStopEarly(r, storedOfChannel), 0);
    assert p.items[..end] == p.items;
  }

  // ---- exactly when ------------------------------------------------------------------

  /** Each upload that was not stored at the start is returned. */
  ghost predicate NothingLost(p: Playlist, r: Request, stored: set<string>, storedOfChannel: set<string>)
    requires ServesPages(p)
  {
    forall v :: v in Uploads(p) && v !in stored ==> v in Walk(p, r, stored, MayStopEarly(r, storedOfChannel), 0, [])
  }

  /** Whatever the order of the playlist and however the provider pages it. */
  ghost predicate NeverLoses(uploads: set<string>, r: Request, stored: set<string>, storedOfChannel: set<string>) {
    forall p :: ServesPages(p) && Uploads(p) == uploads ==> NothingLost(p, r, stored, storedOfChannel)
  }

  /** The shortcut is off, or the stored videos are all of the uploads or none of them. */
  predicate ShortcutIsSafe(uploads: set<string>, r: Request, stored: set<string>, storedOfChannel: set<string>) {
    !r.incremental || BackfillRequired(r, storedOfChannel) || uploads <= stored || uploads !! stored
  }

  /** Exactly when the early stop misses nothing, for a given set of uploads and of stored videos: the
      count only helps through the backfill it calls for. */
  lemma NothingIsMissedIff(uploads: set<string>, r: Request, stored: set<string>, storedOfChannel: set<string>)
    requires r.collectAll && "" !in uploads
    ensures NeverLoses(uploads, r, stored, storedOfChannel) <==> ShortcutIsSafe(uploads, r, stored, storedOfChannel)
  {
    if ShortcutIsSafe(uploads, r, stored, storedOfChannel) {
      forall p | ServesPages(p) && Uploads(p) == uploads ensures NothingLost(p, r, stored, storedOfChannel) {
        SafeShortcut(p, r, stored, storedOfChannel);
      }
    } else {
      var p := UnsafeShortcut(uploads, r, stored, storedOfChannel);
    }
  }

  lemma UnsafeShortcut(uploads: set<string>, r: Request, stored: set<string>, storedOfChannel: set<string>)
      returns (p: Playlist)
    requires r.collectAll && "" !in uploads && !ShortcutIsSafe(uploads, r, stored, storedOfChannel)
    ensures ServesPages(p) && Uploads(p) == uploads && !NothingLost(p, r, stored, storedOfChannel)
  {
    var first :| first in uploads && first in stored;
    var hidden :| hidden in uploads && hidden !in stored;
    p := StoredFirst(uploads, first);
    StoredFirstHidesRest(p, r, stored, first);
    assert hidden in Uploads(p);
  }

  lemma StoredFirst(uploads: set<string>, first: string) returns (p: Playlist)
    requires first in uploads && "" !in uploads
    ensures Uploads(p) == uploads && p.served == OneByOne && p.items != [] && p.items[0] == first
  {
    var rest := Listing(uploads - {first});
    p := Playlist([first] + rest, OneByOne);
    forall v ensures v in Uploads(p) <==> v in uploads {
      assert v in p.items <==> v == first || v in rest;
    }
  }

  lemma SafeShortcut(p: Playlist, r: Request, stored: set<string>, storedOfChannel: set<string>)
    requires ServesPages(p) && r.collectAll && ShortcutIsSafe(Uploads(p), r, stored, storedOfChannel)
    ensures NothingLost(p, r, stored, storedOfChannel)
  {
    var mayStop := MayStopEarly(r, storedOfChannel);
    if mayStop && Uploads(p) !! stored {
      NoKnownPage(p, r, stored, 0, []);
    }
    if !mayStop || Uploads(p) !! stored {
      assert p.items[..0] == [];
      var end := FullWalk(p, r, stored, false, 0);
      assert p.items[..end] == p.items;
      DistinctIs(p.items);
    }
  }

  /** A playlist of new videos never shows a page of stored ones. */
  lemma {:induction false} NoKnownPage(p: Playlist, r: Request, stored: set<string>, from: nat, ids: seq<string>)
    requires ServesPages(p) && r.collectAll && Uploads(p) !! stored
    ensures Walk(p, r, stored, true, from, ids) == Walk(p, r, stored, false, from, ids)
    decreases |p.items| - from
  {
    var page := PageAt(p, from, PageSize(r, |ids|));
    DistinctIs(page);
    if Distinct(page) != [] {
      var v := Distinct(page)[0];
      assert v in page && v in Uploads(p);
    }
    var turn := TakePage(p, r, stored, true, from, ids);
    if !turn.last {
      NoKnownPage(p, r, stored, turn.next, turn.found);
    }
  }

  function OneByOne(from: nat, m: nat): nat {
    1
  }

  /** The elements of a set in some order. */
  ghost function Listing(s: set<string>): (items: seq<string>)
    ensures forall v :: v in items <==> v in s
  {
    if s == {} then []
    else
      var v :| v in s;
      [v] + Listing(s - {v})
  }

  /** A stored video on top, alone on its page, ends the walk there. */
  lemma StoredFirstHidesRest(p: Playlist, r: Request, stored: set<string>, first: string)
    requires p.items != [] && p.items[0] == first && first != "" && first in stored
    requires p.served == OneByOne && r.collectAll
    ensures ServesPages(p) && Walk(p, r, stored, true, 0, []) == [first]
  {
    var page := PageAt(p, 0, 50);
    assert page == [first] == [] + page;
    assert [first] == [] + [first];
    DistinctStep([], first);
  }

  /** The lagging count: the newest upload is stored, the older one is not, and the channel still
      advertises one video. */
  lemma StaleCountHidesUpload(newest: string, older: string)
    requires newest != "" && older != "" && newest != older
    ensures var p := Playlist([newest, older], OneByOne);
            ServesPages(p) && !NothingLost(p, Request(true, 50, true, 1), {newest}, {newest})
  {
    var p := Playlist([newest, older], OneByOne);
    StoredFirstHidesRest(p, Request(true, 50, true, 1), {newest}, newest);
    assert p.items[1] == older && older in Uploads(p);
  }
}
