/** Keyset pagination over a moving set:
    apps/api/monitube_api/infrastructure/memory_results.py and the sort keys of repositories.py. */
module Paging {
  import opened Common
  import opened Ordering

  /** A sort key: some numbers (times, like counts), then the unique text id. */
  datatype Key = Key(ranks: seq<int>, id: string)

  /** Tuple order. */
  predicate Less(a: Key, b: Key) {
    if a.ranks == b.ranks then Before(a.id, b.id) else RanksLess(a.ranks, b.ranks)
  }

  function Direction(descending: bool): (Key, Key) -> bool {
    (a, b) => if descending then Less(b, a) else Less(a, b)
  }

  lemma LessTotal(a: Key, b: Key)
    ensures a == b || Less(a, b) || Less(b, a)
    ensures !(Less(a, b) && Less(b, a))
    ensures !Less(a, a)
  {
    RanksTotal(a.ranks, b.ranks);
    BeforeTotal(a.id, b.id);
    BeforeTotal(a.id, a.id);
  }

  /** The order of keys in other words: smaller at the first rank in which they differ, or of fewer ranks, or
      of the same ranks and a smaller id. */
  ghost predicate Smaller(a: Key, b: Key) {
    || (exists k: nat :: k < |a.ranks| && k < |b.ranks| && a.ranks[..k] == b.ranks[..k] && a.ranks[k] < b.ranks[k])
    || a.ranks < b.ranks
    || (a.ranks == b.ranks && Before(a.id, b.id))
  }

  lemma {:induction false} FirstDifference(a: seq<int>, b: seq<int>) returns (k: nat)
    ensures k <= |a| && k <= |b| && a[..k] == b[..k]
    ensures k < |a| && k < |b| ==> a[k] != b[k]
  {
    if a != [] && b != [] && a[0] == b[0] {
      k := FirstDifference(a[1..], b[1..]);
      assert a[..k + 1] == [a[0]] + a[1..][..k] && b[..k + 1] == [b[0]] + b[1..][..k];
      k := k + 1;
    } else {
      k := 0;
    }
  }

  lemma LessIsSmaller(a: Key, b: Key)
    requires Less(a, b)
    ensures Smaller(a, b)
  {
    if a.ranks != b.ranks {
      var k := FirstDifference(a.ranks, b.ranks);
      RanksLessMeans(a.ranks, b.ranks, k);
    }
  }

  /** Largest first if descending, and smallest first if not. */
  ghost predicate Sequenced(items: seq<Key>, descending: bool) {
    forall i, j :: 0 <= i < j < |items| ==> if descending then Smaller(items[j], items[i]) else Smaller(items[i], items[j])
  }

  lemma InOrderIsSequenced(items: seq<Key>, descending: bool)
    requires InOrder(items, Direction(descending))
    ensures Sequenced(items, descending)
  {
    forall i, j | 0 <= i < j < |items|
      ensures if descending then Smaller(items[j], items[i]) else Smaller(items[i], items[j])
    {
      assert Direction(descending)(items[i], items[j]);
      if descending {
        LessIsSmaller(items[j], items[i]);
      } else {
        LessIsSmaller(items[i], items[j]);
      }
    }
  }

  lemma LessTransitive(a: Key, b: Key, c: Key)
    requires Less(a, b) && Less(b, c)
    ensures Less(a, c)
  {
    RanksTotal(a.ranks, b.ranks);
    RanksTotal(b.ranks, c.ranks);
    RanksTotal(a.ranks, c.ranks);
    if RanksLess(a.ranks, b.ranks) && RanksLess(b.ranks, c.ranks) {
      RanksTransitive(a.ranks, b.ranks, c.ranks);
    }
    if a.ranks == b.ranks == c.ranks {
      BeforeTransitive(a.id, b.id, c.id);
    }
  }

  lemma DirectionIsTotal(descending: bool)
    ensures StrictTotal(Direction(descending))
  {
    var less := Direction(descending);
    forall a ensures !less(a, a) {
      LessTotal(a, a);
    }
    forall a, b ensures a == b || less(a, b) || less(b, a) {
      LessTotal(a, b);
    }
    forall a, b, c | less(a, b) && less(b, c) ensures less(a, c) {
      if descending {
        LessTransitive(c, b, a);
      } else {
        LessTransitive(a, b, c);
      }
    }
  }

  // ---- one page --------------------------------------------------------------------

  datatype PageResult = PageResult(items: seq<Key>, next: Option<Key>, total: nat)

  /** The keys strictly beyond the cursor. */
  ghost function Beyond(listing: set<Key>, descending: bool, cursor: Option<Key>): set<Key> {
    set k | k in listing && (cursor.None? || Direction(descending)(cursor.value, k))
  }

  function Filter(ordered: seq<Key>, descending: bool, cursor: Option<Key>): seq<Key> {
    if ordered == [] then []
    else
      var rest := Filter(ordered[1..], descending, cursor);
      if cursor.None? || Direction(descending)(cursor.value, ordered[0]) then [ordered[0]] + rest else rest
  }

  /** Sort, drop everything up to the cursor, take one more than a page to see whether more follows. */
  ghost function GetPage(listing: set<Key>, descending: bool, cursor: Option<Key>, limit: nat): PageResult {
    DirectionIsTotal(descending);
    var ordered := Sorted(listing, Direction(descending));
    CutPage(Filter(ordered, descending, cursor), limit, |ordered|)
  }

  function CutPage(after: seq<Key>, limit: nat, total: nat): PageResult {
    var candidates := after[..if limit + 1 <= |after| then limit + 1 else |after|];
    var hasMore := |candidates| > limit;
    var page := candidates[..if limit <= |candidates| then limit else |candidates|];
    PageResult(page, if hasMore && page != [] then Some(page[|page| - 1]) else None, total)
  }

  lemma {:induction false} FilterIsBeyond(ordered: seq<Key>, descending: bool, cursor: Option<Key>)
    requires InOrder(ordered, Direction(descending))
    ensures InOrder(Filter(ordered, descending, cursor), Direction(descending))
    ensures forall k :: k in Filter(ordered, descending, cursor) <==>
              k in ordered && (cursor.None? || Direction(descending)(cursor.value, k))
  {
    if ordered != [] {
      var head, tail := ordered[0], ordered[1..];
      FilterIsBeyond(tail, descending, cursor);
      assert ordered == [head] + tail;
      var rest := Filter(tail, descending, cursor);
      forall j | 0 <= j < |rest| ensures Direction(descending)(head, rest[j]) {
        assert rest[j] in tail;
        var i :| 0 <= i < |tail| && tail[i] == rest[j];
        assert ordered[i + 1] == rest[j];
      }
    }
  }

  ghost predicate Within(items: seq<Key>, s: set<Key>) {
    forall k :: k in items ==> k in s
  }

  ghost predicate Covers(items: seq<Key>, s: set<Key>) {
    forall k :: k in s ==> k in items
  }

  /** Every key of `s` is either delivered or still beyond the next cursor, and not both. */
  ghost predicate Splits(items: seq<Key>, s: set<Key>, remaining: set<Key>) {
    forall k :: k in s ==> (k in items <==> k !in remaining)
  }

  /** What a page promises: the first keys beyond the cursor, in order, and a next cursor exactly
      when more remain, which opens exactly what remains. */
  ghost predicate IsPage(listing: set<Key>, descending: bool, cursor: Option<Key>, limit: nat, result: PageResult) {
    var beyond := Beyond(listing, descending, cursor);
    && InOrder(result.items, Direction(descending))
    && Within(result.items, beyond)
    && result.total == |listing|
    && match result.next
       case None => Covers(result.items, beyond)
       case Some(last) =>
         && |result.items| == limit
         && limit >= 1 && last == result.items[limit - 1]
         && Beyond(listing, descending, Some(last)) != {}
         && Splits(result.items, beyond, Beyond(listing, descending, Some(last)))
  }

  lemma PageIsFirstBeyond(listing: set<Key>, descending: bool, cursor: Option<Key>, limit: nat)
    requires limit >= 1
    ensures IsPage(listing, descending, cursor, limit, GetPage(listing, descending, cursor, limit))
    ensures Sequenced(GetPage(listing, descending, cursor, limit).items, descending)
  {
    DirectionIsTotal(descending);
    var less := Direction(descending);
    var ordered := Sorted(listing, less);
    SortedInOrder(listing, less);
    var after := Filter(ordered, descending, cursor);
    FilterIsBeyond(ordered, descending, cursor);
    assert Within(after, Beyond(listing, descending, cursor));
    assert Covers(after, Beyond(listing, descending, cursor));
    CutIsPage(listing, descending, cursor, limit, after);
    InOrderIsSequenced(GetPage(listing, descending, cursor, limit).items, descending);
  }

  lemma CutIsPage(listing: set<Key>, descending: bool, cursor: Option<Key>, limit: nat, after: seq<Key>)
    requires limit >= 1 && InOrder(after, Direction(descending))
    requires Within(after, Beyond(listing, descending, cursor)) && Covers(after, Beyond(listing, descending, cursor))
    ensures IsPage(listing, descending, cursor, limit, CutPage(after, limit, |listing|))
  {
    var result := CutPage(after, limit, |listing|);
    if |after| <= limit {
      assert result.items == after;
    } else {
      DirectionIsTotal(descending);
      assert result.items == after[..limit];
      var last := after[limit - 1];
      assert result.next == Some(last);
      assert after[limit] in after;
      assert after[limit] in Beyond(listing, descending, Some(last));
      forall k | k in Beyond(listing, descending, cursor)
        ensures k in result.items <==> k !in Beyond(listing, descending, Some(last))
      {
      }
    }
  }

  // ---- following next_cursor -------------------------------------------------------

  datatype Walk = Walk(items: seq<Key>, pages: seq<seq<Key>>, finished: bool)

  /** Follows next_cursor from page to page; the i-th request sees the i-th listing. */
  ghost function Follow(listings: seq<set<Key>>, descending: bool, cursor: Option<Key>, limit: nat): Walk {
    if listings == [] then Walk([], [], false)
    else
      var page := GetPage(listings[0], descending, cursor, limit);
      if page.next.None? then Walk(page.items, [page.items], true)
      else
        var rest := Follow(listings[1..], descending, page.next, limit);
        Walk(page.items + rest.items, [page.items] + rest.pages, rest.finished)
  }

  ghost predicate AllBeyond(items: seq<Key>, descending: bool, cursor: Option<Key>) {
    forall k :: k in items ==> cursor.None? || Direction(descending)(cursor.value, k)
  }

  /** Whatever happens to the set between requests, the delivered keys are strictly ordered:
      no key ever comes twice. */
  lemma {:induction false} NothingTwice(listings: seq<set<Key>>, descending: bool, cursor: Option<Key>, limit: nat)
    requires limit >= 1
    ensures InOrder(Follow(listings, descending, cursor, limit).items, Direction(descending))
    ensures AllBeyond(Follow(listings, descending, cursor, limit).items, descending, cursor)
  {
    if listings != [] {
      var page := GetPage(listings[0], descending, cursor, limit);
      PageIsFirstBeyond(listings[0], descending, cursor, limit);
      if page.next.Some? {
        NothingTwice(listings[1..], descending, page.next, limit);
        JoinBeyond(page.items, Follow(listings[1..], descending, page.next, limit).items, descending, cursor);
      }
    }
  }

  lemma JoinBeyond(a: seq<Key>, b: seq<Key>, descending: bool, cursor: Option<Key>)
    requires InOrder(a, Direction(descending)) && InOrder(b, Direction(descending)) && a != []
    requires AllBeyond(a, descending, cursor) && AllBeyond(b, descending, Some(a[|a| - 1]))
    ensures InOrder(a + b, Direction(descending)) && AllBeyond(a + b, descending, cursor)
  {
    DirectionIsTotal(descending);
    JoinInOrder(a, b, Direction(descending));
    assert a[|a| - 1] in a;
  }

  ghost predicate SeenIn(k: Key, listings: seq<set<Key>>) {
    exists i :: 0 <= i < |listings| && k in listings[i]
  }

  /** Only keys some request could see are delivered. */
  lemma {:induction false} NothingInvented(listings: seq<set<Key>>, descending: bool, cursor: Option<Key>, limit: nat, k: Key)
    requires limit >= 1
    requires k in Follow(listings, descending, cursor, limit).items
    ensures SeenIn(k, listings)
  {
    if listings != [] {
      var page := GetPage(listings[0], descending, cursor, limit);
      PageIsFirstBeyond(listings[0], descending, cursor, limit);
      if k in page.items {
        assert k in listings[0];
      } else {
        NothingInvented(listings[1..], descending, page.next, limit, k);
        var i :| 0 <= i < |listings| - 1 && k in listings[1..][i];
        assert k in listings[i + 1];
      }
    }
  }

  ghost predicate AlwaysBeyond(k: Key, listings: seq<set<Key>>, descending: bool, cursor: Option<Key>) {
    forall i :: 0 <= i < |listings| ==> k in Beyond(listings[i], descending, cursor)
  }

  /** A finished walk delivers every key that was in the set at every request. */
  lemma {:induction false} NothingMissed(listings: seq<set<Key>>, descending: bool, cursor: Option<Key>, limit: nat, k: Key)
    requires limit >= 1
    requires Follow(listings, descending, cursor, limit).finished
    requires AlwaysBeyond(k, listings, descending, cursor)
    ensures k in Follow(listings, descending, cursor, limit).items
  {
    var page := GetPage(listings[0], descending, cursor, limit);
    PageIsFirstBeyond(listings[0], descending, cursor, limit);
    assert k in Beyond(listings[0], descending, cursor);
    if k !in page.items {
      assert k in Beyond(listings[0], descending, page.next);
      forall i | 0 <= i < |listings| - 1 ensures k in Beyond(listings[1..][i], descending, page.next) {
        assert k in Beyond(listings[i + 1], descending, cursor);
      }
      NothingMissed(listings[1..], descending, page.next, limit, k);
    }
  }

  lemma JoinInOrder(a: seq<Key>, b: seq<Key>, less: (Key, Key) -> bool)
    requires StrictTotal(less) && InOrder(a, less) && InOrder(b, less) && a != []
    requires forall k :: k in b ==> less(a[|a| - 1], k)
    ensures InOrder(a + b, less)
  {
    forall i, j | 0 <= i < j < |a + b| ensures less((a + b)[i], (a + b)[j]) {
      if i < |a| <= j {
        assert b[j - |a|] in b;
        assert i < |a| - 1 ==> less(a[i], a[|a| - 1]);
      }
    }
  }

  ghost predicate Fixed(listings: seq<set<Key>>, listing: set<Key>) {
    forall i :: 0 <= i < |listings| ==> listings[i] == listing
  }

  ghost predicate FullButLast(pages: seq<seq<Key>>, limit: nat) {
    forall p :: 0 <= p < |pages| - 1 ==> |pages[p]| == limit
  }

  /** Every page but the last is full, whatever happens to the set. */
  lemma {:induction false} PagesAreFull(listings: seq<set<Key>>, descending: bool, cursor: Option<Key>, limit: nat)
    requires limit >= 1
    ensures FullButLast(Follow(listings, descending, cursor, limit).pages, limit)
  {
    if listings != [] {
      PageIsFirstBeyond(listings[0], descending, cursor, limit);
      var page := GetPage(listings[0], descending, cursor, limit);
      if page.next.Some? {
        PagesAreFull(listings[1..], descending, page.next, limit);
      }
    }
  }

  /** Enough requests finish the walk of a fixed set. */
  lemma {:induction false} FollowFinishes(listings: seq<set<Key>>, listing: set<Key>, descending: bool,
                                          cursor: Option<Key>, limit: nat)
    requires limit >= 1
    requires Fixed(listings, listing)
    requires |listings| > |Beyond(listing, descending, cursor)|
    ensures Follow(listings, descending, cursor, limit).finished
  {
    var page := GetPage(listings[0], descending, cursor, limit);
    PageIsFirstBeyond(listings[0], descending, cursor, limit);
    if page.next.Some? {
      assert page.next.value in page.items;
      BeyondShrinks(listing, descending, cursor, page.next.value);
      FollowFinishes(listings[1..], listing, descending, page.next, limit);
    }
  }

  lemma BeyondShrinks(listing: set<Key>, descending: bool, cursor: Option<Key>, last: Key)
    requires last in Beyond(listing, descending, cursor)
    ensures |Beyond(listing, descending, Some(last))| < |Beyond(listing, descending, cursor)|
  {
    DirectionIsTotal(descending);
    var less := Direction(descending);
    var smaller, larger := Beyond(listing, descending, Some(last)), Beyond(listing, descending, cursor);
    forall k | k in smaller ensures k in larger - {last} {
      assert less(last, k);
      assert cursor.Some? ==> less(cursor.value, last);
    }
    SubsetCardinality(smaller, larger - {last});
  }

  /** Paging is exact: over a fixed set, following next_cursor from the first page concatenates to
      the sorted listing, each key once, in full pages. */
  lemma PagingIsExact(listings: seq<set<Key>>, listing: set<Key>, descending: bool, limit: nat)
    requires limit >= 1 && |listings| > |listing|
    requires Fixed(listings, listing)
    ensures StrictTotal(Direction(descending))
    ensures var walk := Follow(listings, descending, None, limit);
            && walk.finished
            && walk.items == Sorted(listing, Direction(descending))
            && |walk.items| == |listing|
            && Sequenced(walk.items, descending)
            && FullButLast(walk.pages, limit)
  {
    DirectionIsTotal(descending);
    assert Beyond(listing, descending, None) == listing;
    FollowFinishes(listings, listing, descending, None, limit);
    PagesAreFull(listings, descending, None, limit);
    NothingTwice(listings, descending, None, limit);
    SortedInOrder(listing, Direction(descending));
    var walk := Follow(listings, descending, None, limit);
    forall k ensures k in walk.items <==> k in Sorted(listing, Direction(descending)) {
      if k in listing {
        NothingMissed(listings, descending, None, limit, k);
      }
      if k in walk.items {
        NothingInvented(listings, descending, None, limit, k);
      }
    }
    OrderIsUnique(walk.items, Sorted(listing, Direction(descending)), Direction(descending));
    InOrderIsSequenced(walk.items, descending);
  }
}
