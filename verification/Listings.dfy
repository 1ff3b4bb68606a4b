/** Which videos a page may show, and paging while the collector keeps linking new ones:
    apps/api/monitube_api/infrastructure/memory_results.py and memory_collection.py. */
module Listings {
  import opened Common
  import opened Ordering
  import opened Paging
  import C = Cursor

  type Id = string
  type Time = nat

  /** The earliest time, standing in for a first-seen time that was never recorded. */
  const EPOCH: Time := 0

  datatype Video = Video(published: Option<Time>, fetched: Time, channel: Option<Id>)
  datatype Subscription = Subscription(user: Id, target: Id, created: Time)

  /** The videos of each scope, and when each entered it. */
  datatype Links = Links(members: map<Id, set<Id>>, seen: map<(Id, Id), Time>)

  datatype Library = Library(
    videos: map<Id, Video>,
    videoSeen: map<Id, Time>,
    sources: map<Id, Option<Id>>,
    subscriptions: map<Id, Subscription>,
    bySource: Links,
    byTarget: Links)

  function Effective(v: Video): Time {
    v.published.GetOr(v.fetched)
  }

  // ---- writes ----------------------------------------------------------------------

  function SetDefault<K, V>(m: map<K, V>, k: K, v: V): map<K, V> {
    if k in m then m else m[k := v]
  }

  function Members(links: Links, scope: Id): set<Id> {
    if scope in links.members then links.members[scope] else {}
  }

  /** The first time wins. */
  function AddLink(links: Links, scope: Id, id: Id, now: Time): Links {
    Links(links.members[scope := Members(links, scope) + {id}], SetDefault(links.seen, (scope, id), now))
  }

  predicate KnownSource(lib: Library, source: Id) {
    source in lib.subscriptions || source in lib.sources
  }

  /** A source id names a subscription first, then a stored source. */
  function TargetOf(lib: Library, source: Id): Option<Id> {
    if source in lib.subscriptions then Some(lib.subscriptions[source].target)
    else if source in lib.sources then lib.sources[source]
    else None
  }

  datatype Change =
    | UpsertVideo(id: Id, video: Video, now: Time)
    | LinkSourceVideo(source: Id, id: Id, now: Time)
    | Subscribe(subscription: Id, record: Subscription)

  function At(change: Change): Time {
    if change.Subscribe? then change.record.created else change.now
  }

  function Link(lib: Library, source: Id, id: Id, now: Time): Library {
    var own := lib.(bySource := AddLink(lib.bySource, source, id, now));
    match TargetOf(lib, source)
    case None => own
    case Some(target) => own.(byTarget := AddLink(lib.byTarget, target, id, now))
  }

  /** Linking an unknown source or video raises NotFoundError and changes nothing. */
  function Apply(lib: Library, change: Change): Library {
    match change
    case UpsertVideo(id, video, now) =>
      lib.(videos := lib.videos[id := video], videoSeen := SetDefault(lib.videoSeen, id, now))
    case LinkSourceVideo(source, id, now) =>
      if KnownSource(lib, source) && id in lib.videos then Link(lib, source, id, now) else lib
    case Subscribe(subscription, record) =>
      lib.(subscriptions := lib.subscriptions[subscription := record])
  }

  function ApplyAll(lib: Library, changes: seq<Change>): Library
    decreases |changes|
  {
    if changes == [] then lib else ApplyAll(Apply(lib, changes[0]), changes[1..])
  }

  // ---- reads -----------------------------------------------------------------------

  datatype Query = OfSource(source: Id) | OfOwner(owner: Option<Id>, channel: Option<Id>)

  /** Linked to the scope by time t. */
  predicate LinkedBy(links: Links, scope: Id, id: Id, t: int) {
    id in Members(links, scope) && SeenAt(links, scope, id) <= t
  }

  function SeenAt(links: Links, scope: Id, id: Id): Time {
    if (scope, id) in links.seen then links.seen[(scope, id)] else EPOCH
  }

  /** Visible to a user by time t: through a subscription that already existed, to a target that
      already had the video. */
  ghost predicate VisibleThrough(lib: Library, user: Id, subscription: Id, id: Id, t: int) {
    && subscription in lib.subscriptions
    && lib.subscriptions[subscription].user == user
    && lib.subscriptions[subscription].created <= t
    && LinkedBy(lib.byTarget, lib.subscriptions[subscription].target, id, t)
  }

  ghost predicate Listed(lib: Library, q: Query, id: Id, t: int) {
    && id in lib.videos
    && match q
       case OfSource(source) =>
         (match TargetOf(lib, source)
          case Some(target) => LinkedBy(lib.byTarget, target, id, t)
          case None => LinkedBy(lib.bySource, source, id, t))
       case OfOwner(owner, channel) =>
         && (channel.None? || lib.videos[id].channel == channel)
         && (match owner
             case None => (if id in lib.videoSeen then lib.videoSeen[id] else EPOCH) <= t
             case Some(user) => exists s :: VisibleThrough(lib, user, s, id, t))
  }

  function KeyOf(q: Query, id: Id, v: Video): Key {
    if q.OfSource? then Key([Effective(v)], id) else Key([Effective(v), v.fetched], id)
  }

  /** What a snapshot at time t may show. */
  ghost function Listing(lib: Library, q: Query, t: int): set<Key> {
    set id | id in lib.videos && Listed(lib, q, id, t) :: KeyOf(q, id, lib.videos[id])
  }

  lemma ListingHas(lib: Library, q: Query, t: int, k: Key)
    ensures k in Listing(lib, q, t) <==>
            k.id in lib.videos && Listed(lib, q, k.id, t) && k == KeyOf(q, k.id, lib.videos[k.id])
  {
  }

  /** Every link's time was recorded when it was made, and only then. */
  ghost predicate RecordedLinks(links: Links) {
    forall scope, id :: id in Members(links, scope) <==> (scope, id) in links.seen
  }

  /** Every link is to a stored video. */
  ghost predicate Known(links: Links, videos: map<Id, Video>) {
    forall scope, id :: id in Members(links, scope) ==> id in videos
  }

  ghost predicate Recorded(lib: Library) {
    && RecordedLinks(lib.byTarget) && Known(lib.byTarget, lib.videos)
    && RecordedLinks(lib.bySource) && Known(lib.bySource, lib.videos)
    && lib.videos.Keys == lib.videoSeen.Keys
  }

  lemma AddLinkKeeps(links: Links, videos: map<Id, Video>, scope: Id, id: Id, now: Time)
    requires RecordedLinks(links) && Known(links, videos) && id in videos
    ensures RecordedLinks(AddLink(links, scope, id, now)) && Known(AddLink(links, scope, id, now), videos)
  {
    var after := AddLink(links, scope, id, now);
    forall s, i ensures i in Members(after, s) <==> i in Members(links, s) || (s, i) == (scope, id) {
    }
  }

  lemma ApplyKeepsRecorded(lib: Library, change: Change)
    requires Recorded(lib)
    ensures Recorded(Apply(lib, change))
  {
    match change
    case UpsertVideo(id, video, now) =>
      var videos := lib.videos[id := video];
      assert Known(lib.byTarget, videos) && Known(lib.bySource, videos);
    case LinkSourceVideo(source, id, now) =>
      if KnownSource(lib, source) && id in lib.videos {
        AddLinkKeeps(lib.bySource, lib.videos, source, id, now);
        if TargetOf(lib, source).Some? {
          AddLinkKeeps(lib.byTarget, lib.videos, TargetOf(lib, source).value, id, now);
        }
      }
    case Subscribe(_, _) =>
  }

  // ---- stability of a snapshot -----------------------------------------------------

  /** The filter of a listing; source listings have none. */
  predicate Shows(q: Query, v: Video) {
    q.OfSource? || q.channel.None? || v.channel == q.channel
  }

  /** A stored video is written again: the filter answers as before, and if the snapshot shows the
      video, its sort key is the same. */
  ghost predicate KeepsPlace(lib: Library, q: Query, id: Id, video: Video, t: int)
    requires id in lib.videos
  {
    && Shows(q, video) == Shows(q, lib.videos[id])
    && (Listed(lib, q, id, t) ==> KeyOf(q, id, video) == KeyOf(q, id, lib.videos[id]))
  }

  /** Links, new videos and new subscriptions come after the snapshot. */
  predicate Later(lib: Library, change: Change, t: int) {
    && ((change.UpsertVideo? && change.id in lib.videos) || At(change) > t)
    && (change.Subscribe? ==> !KnownSource(lib, change.subscription))
  }

  /** A later change that re-sorts nothing the listing shows. */
  ghost predicate Quiet(lib: Library, q: Query, change: Change, t: int) {
    && Later(lib, change, t)
    && (change.UpsertVideo? && change.id in lib.videos ==> KeepsPlace(lib, q, change.id, change.video, t))
  }

  lemma QuietLinks(lib: Library, change: Change, scope: Id, id: Id, t: int)
    requires Recorded(lib) && Later(lib, change, t)
    ensures LinkedBy(Apply(lib, change).byTarget, scope, id, t) == LinkedBy(lib.byTarget, scope, id, t)
    ensures LinkedBy(Apply(lib, change).bySource, scope, id, t) == LinkedBy(lib.bySource, scope, id, t)
  {
    if change.LinkSourceVideo? && KnownSource(lib, change.source) && change.id in lib.videos {
      if TargetOf(lib, change.source).Some? {
      }
    }
  }

  lemma QuietVisibility(lib: Library, change: Change, user: Id, s: Id, id: Id, t: int)
    requires Recorded(lib) && Later(lib, change, t)
    ensures VisibleThrough(Apply(lib, change), user, s, id, t) == VisibleThrough(lib, user, s, id, t)
  {
    if s in lib.subscriptions {
      QuietLinks(lib, change, lib.subscriptions[s].target, id, t);
    }
  }

  lemma NewVideoIsNotLinked(lib: Library, q: Query, id: Id, t: int)
    requires Recorded(lib) && id !in lib.videos
    ensures q.OfSource? ==>
              match TargetOf(lib, q.source)
              case Some(target) => !LinkedBy(lib.byTarget, target, id, t)
              case None => !LinkedBy(lib.bySource, q.source, id, t)
    ensures q.OfOwner? && q.owner.Some? ==> forall s :: !VisibleThrough(lib, q.owner.value, s, id, t)
  {
  }

  lemma QuietKeepsListed(lib: Library, change: Change, q: Query, id: Id, t: int)
    requires Recorded(lib) && Quiet(lib, q, change, t)
    requires q.OfSource? ==> KnownSource(lib, q.source)
    ensures Listed(Apply(lib, change), q, id, t) == Listed(lib, q, id, t)
  {
    var after := Apply(lib, change);
    if id !in lib.videos {
      NewVideoIsNotLinked(lib, q, id, t);
    }
    match q
    case OfSource(source) =>
      QuietLinks(lib, change, source, id, t);
      assert TargetOf(after, source) == TargetOf(lib, source);
      if TargetOf(lib, source).Some? {
        QuietLinks(lib, change, TargetOf(lib, source).value, id, t);
      }
    case OfOwner(owner, channel) =>
      if owner.Some? {
        forall s ensures VisibleThrough(after, owner.value, s, id, t) == VisibleThrough(lib, owner.value, s, id, t) {
          QuietVisibility(lib, change, owner.value, s, id, t);
        }
      }
  }

  /** A snapshot is stable: quiet changes never alter what it shows. */
  lemma QuietKeepsListing(lib: Library, change: Change, q: Query, t: int)
    requires Recorded(lib) && Quiet(lib, q, change, t)
    requires q.OfSource? ==> KnownSource(lib, q.source)
    ensures Listing(Apply(lib, change), q, t) == Listing(lib, q, t)
  {
    var after := Apply(lib, change);
    forall k ensures k in Listing(after, q, t) <==> k in Listing(lib, q, t) {
      ListingHas(lib, q, t, k);
      ListingHas(after, q, t, k);
      QuietKeepsListed(lib, change, q, k.id, t);
    }
  }

  /** Later than the snapshot is exactly what a new link needs: one made at the snapshot's own
      instant already shows up in it. */
  lemma NewLinkKeepsListingIffLater(lib: Library, source: Id, id: Id, now: Time, t: int)
    requires Recorded(lib) && KnownSource(lib, source) && id in lib.videos
    requires !Listed(lib, OfSource(source), id, t)
    requires (match TargetOf(lib, source)
              case Some(target) => id !in Members(lib.byTarget, target)
              case None => id !in Members(lib.bySource, source))
    ensures Listing(Apply(lib, LinkSourceVideo(source, id, now)), OfSource(source), t) == Listing(lib, OfSource(source), t)
            <==> now > t
  {
    var q, change := OfSource(source), LinkSourceVideo(source, id, now);
    if now > t {
      QuietKeepsListing(lib, change, q, t);
    } else {
      var k := KeyOf(q, id, lib.videos[id]);
      ListingHas(lib, q, t, k);
      ListingHas(Apply(lib, change), q, t, k);
      assert TargetOf(Apply(lib, change), source) == TargetOf(lib, source);
    }
  }

  /** A video is in the public listing from the moment it was first stored on, if the channel is the one
      asked for. */
  lemma PublicListingShowsStored(lib: Library, id: Id, video: Video, now: Time, channel: Option<Id>, t: int)
    requires Recorded(lib)
    ensures var after := Apply(lib, UpsertVideo(id, video, now));
            var first := if id in lib.videoSeen then lib.videoSeen[id] else now;
            Listed(after, OfOwner(None, channel), id, t) <==> t >= first && (channel.Some? ==> video.channel == channel)
  {
  }

  /** The library of one stored video, in a source without a target. */
  function OneVideo(source: Id, id: Id): Library {
    Library(map[id := Video(Some(1), 1, None)], map[id := 1], map[source := None], map[],
            Links(map[], map[]), Links(map[], map[]))
  }

  /** A video linked at the instant of the snapshot appears in it although its first page is out. */
  lemma SameInstantLinkShowsUp(source: Id, id: Id, t: Time)
    ensures var lib := OneVideo(source, id);
            && Recorded(lib) && Listing(lib, OfSource(source), t) == {}
            && Listing(Apply(lib, LinkSourceVideo(source, id, t)), OfSource(source), t) != {}
  {
    NewLinkKeepsListingIffLater(OneVideo(source, id), source, id, t, t);
  }

  ghost predicate QuietRun(lib: Library, q: Query, changes: seq<Change>, t: int)
    decreases |changes|
  {
    changes == [] || (Quiet(lib, q, changes[0], t) && QuietRun(Apply(lib, changes[0]), q, changes[1..], t))
  }

  lemma {:induction false} QuietRunKeepsListing(lib: Library, changes: seq<Change>, q: Query, t: int)
    requires Recorded(lib) && QuietRun(lib, q, changes, t)
    requires q.OfSource? ==> KnownSource(lib, q.source)
    ensures Listing(ApplyAll(lib, changes), q, t) == Listing(lib, q, t)
    ensures Recorded(ApplyAll(lib, changes))
    ensures q.OfSource? ==> KnownSource(ApplyAll(lib, changes), q.source)
    decreases |changes|
  {
    if changes != [] {
      QuietKeepsListing(lib, changes[0], q, t);
      ApplyKeepsRecorded(lib, changes[0]);
      QuietRunKeepsListing(Apply(lib, changes[0]), changes[1..], q, t);
    }
  }

  /** Storing a video again changes no link, so only the filter can hide it or bring it in. */
  lemma UpsertKeepsLinks(lib: Library, q: Query, id: Id, video: Video, now: Time, i: Id, t: int)
    requires Recorded(lib) && id in lib.videos
    ensures var after := Apply(lib, UpsertVideo(id, video, now));
            i in lib.videos && Shows(q, lib.videos[i]) == Shows(q, after.videos[i]) ==>
              Listed(after, q, i, t) == Listed(lib, q, i, t)
    ensures Listed(Apply(lib, UpsertVideo(id, video, now)), q, id, t) ==> Shows(q, video)
  {
    var after := Apply(lib, UpsertVideo(id, video, now));
    if q.OfOwner? && q.owner.Some? {
      forall s ensures VisibleThrough(after, q.owner.value, s, i, t) == VisibleThrough(lib, q.owner.value, s, i, t) {
      }
    }
  }

  /** Re-sorting is the other way to disturb a snapshot: storing a listed video again keeps a listing
      exactly when the video still passes its filter and has the same sort key, which for an owner's
      listing includes the time it was fetched. */
  lemma UpsertKeepsListingIffSameKey(lib: Library, q: Query, id: Id, video: Video, now: Time, t: int)
    requires Recorded(lib) && Listed(lib, q, id, t)
    ensures Listing(Apply(lib, UpsertVideo(id, video, now)), q, t) == Listing(lib, q, t)
            <==> && Effective(video) == Effective(lib.videos[id])
                 && (q.OfOwner? ==> video.fetched == lib.videos[id].fetched && Shows(q, video))
  {
    var after := Apply(lib, UpsertVideo(id, video, now));
    var was := KeyOf(q, id, lib.videos[id]);
    UpsertKeepsLinks(lib, q, id, video, now, id, t);
    ListingHas(lib, q, t, was);
    ListingHas(after, q, t, was);
    if KeyOf(q, id, video) == was && Shows(q, video) {
      forall k ensures k in Listing(after, q, t) <==> k in Listing(lib, q, t) {
        ListingHas(lib, q, t, k);
        ListingHas(after, q, t, k);
        UpsertKeepsLinks(lib, q, id, video, now, k.id, t);
      }
    }
  }

  /** An ordinary re-collection stores a published video again with a new fetch time. It never
      disturbs a source listing, and always disturbs an owner's listing that shows the video. */
  lemma RecollectionResortsOwnerListings(lib: Library, q: Query, id: Id, fetched: Time, now: Time, t: int)
    requires Recorded(lib) && Listed(lib, q, id, t)
    requires lib.videos[id].published.Some? && fetched != lib.videos[id].fetched
    ensures Listing(Apply(lib, UpsertVideo(id, lib.videos[id].(fetched := fetched), now)), q, t) == Listing(lib, q, t)
            <==> q.OfSource?
  {
    UpsertKeepsListingIffSameKey(lib, q, id, lib.videos[id].(fetched := fetched), now, t);
  }

  // ---- the store that is written in place -------------------------------------------

  ghost predicate VisibleAmong(lib: Library, user: Id, among: set<Id>, id: Id, t: int) {
    exists s :: s in among && VisibleThrough(lib, user, s, id, t)
  }

  lemma AmongOneMore(lib: Library, user: Id, among: set<Id>, s: Id)
    ensures forall id, t: int :: VisibleAmong(lib, user, among + {s}, id, t) <==>
              VisibleAmong(lib, user, among, id, t) || VisibleThrough(lib, user, s, id, t)
  {
    forall id, t: int
      ensures VisibleAmong(lib, user, among + {s}, id, t) <==>
              VisibleAmong(lib, user, among, id, t) || VisibleThrough(lib, user, s, id, t)
    {
      if VisibleThrough(lib, user, s, id, t) {
        assert s in among + {s};
      }
      if VisibleAmong(lib, user, among, id, t) {
        var other :| other in among && VisibleThrough(lib, user, other, id, t);
        assert other in among + {s};
      }
    }
  }

  /** `visible` holds the first time each video became visible through those subscriptions. */
  ghost predicate FirstVisible(visible: map<Id, Time>, lib: Library, user: Id, among: set<Id>) {
    forall id, t: int :: (id in visible && visible[id] <= t) <==> VisibleAmong(lib, user, among, id, t)
  }

  class VideoLibrary {
    var videos: map<Id, Video>
    var videoSeen: map<Id, Time>
    var sources: map<Id, Option<Id>>
    var subscriptions: map<Id, Subscription>
    var bySource: Links
    var byTarget: Links

    ghost function Snapshot(): Library
      reads this
    {
      Library(videos, videoSeen, sources, subscriptions, bySource, byTarget)
    }

    /** Every link is to a stored video, and was dated when it was made. */
    ghost predicate Valid()
      reads this
    {
      Recorded(Snapshot())
    }

    constructor (sources: map<Id, Option<Id>>)
      ensures Valid() && Snapshot() == Library(map[], map[], sources, map[], Links(map[], map[]), Links(map[], map[]))
    {
      videos, videoSeen, this.sources, subscriptions := map[], map[], sources, map[];
      bySource, byTarget := Links(map[], map[]), Links(map[], map[]);
    }

    method Subscribe(subscription: Id, record: Subscription)
      requires Valid()
      modifies this`subscriptions
      ensures Valid() && Snapshot() == Apply(old(Snapshot()), Change.Subscribe(subscription, record))
    {
      subscriptions := subscriptions[subscription := record];
    }

    method UpsertVideo(id: Id, video: Video, now: Time)
      requires Valid()
      modifies this
      ensures Valid() && Snapshot() == Apply(old(Snapshot()), Change.UpsertVideo(id, video, now))
    {
      ApplyKeepsRecorded(Snapshot(), Change.UpsertVideo(id, video, now));
      videos := videos[id := video];
      if id !in videoSeen {
        videoSeen := videoSeen[id := now];
      }
    }

    method LinkSourceVideo(source: Id, id: Id, now: Time) returns (found: bool)
      requires Valid()
      modifies this
      ensures Valid() && found == (old(KnownSource(Snapshot(), source)) && id in old(videos))
      ensures Snapshot() == Apply(old(Snapshot()), Change.LinkSourceVideo(source, id, now))
    {
      ApplyKeepsRecorded(Snapshot(), Change.LinkSourceVideo(source, id, now));
      found := AddToScopes(source, id, now);
    }

    method AddToScopes(source: Id, id: Id, now: Time) returns (found: bool)
      modifies this`bySource, this`byTarget
      ensures found == (old(KnownSource(Snapshot(), source)) && id in videos)
      ensures Snapshot() == Apply(old(Snapshot()), Change.LinkSourceVideo(source, id, now))
    {
      found := (source in subscriptions || source in sources) && id in videos;
      if !found {
        return;
      }
      var target := if source in subscriptions then Some(subscriptions[source].target) else sources[source];
      bySource := AddLink(bySource, source, id, now);
      if target.Some? {
        byTarget := AddLink(byTarget, target.value, id, now);
      }
    }

    /** Folds every subscription of the user into the earliest time each video could be seen. */
    method VisibleVideoMembership(user: Id) returns (visible: map<Id, Time>)
      ensures FirstVisible(visible, Snapshot(), user, subscriptions.Keys)
    {
      visible := map[];
      var rest := subscriptions.Keys;
      while rest != {}
        invariant rest <= subscriptions.Keys
        invariant FirstVisible(visible, Snapshot(), user, subscriptions.Keys - rest)
        decreases rest
      {
        var s :| s in rest;
        ghost var done := subscriptions.Keys - rest;
        rest := rest - {s};
        assert subscriptions.Keys - rest == done + {s};
        if subscriptions[s].user == user {
          visible := FoldSubscription(visible, user, s, done);
        } else {
          AmongOneMore(Snapshot(), user, done, s);
        }
      }
      assert subscriptions.Keys - rest == subscriptions.Keys;
    }

    method FoldSubscription(before: map<Id, Time>, user: Id, s: Id, ghost done: set<Id>) returns (visible: map<Id, Time>)
      requires s in subscriptions && subscriptions[s].user == user
      requires FirstVisible(before, Snapshot(), user, done)
      ensures FirstVisible(visible, Snapshot(), user, done + {s})
    {
      visible := before;
      var record := subscriptions[s];
      var ids := Members(byTarget, record.target);
      ghost var folded: set<Id> := {};
      while ids != {}
        invariant folded + ids == Members(byTarget, record.target) && folded !! ids
        invariant forall id, t: int :: (id in visible && visible[id] <= t) <==>
                    VisibleAmong(Snapshot(), user, done, id, t) || (id in folded && VisibleThrough(Snapshot(), user, s, id, t))
        decreases ids
      {
        var id :| id in ids;
        var seen := if (record.target, id) in byTarget.seen then byTarget.seen[(record.target, id)] else EPOCH;
        var firstVisibleAt := if record.created >= seen then record.created else seen;
        if id !in visible || firstVisibleAt < visible[id] {
          visible := visible[id := firstVisibleAt];
        }
        ids, folded := ids - {id}, folded + {id};
      }
      AmongOneMore(Snapshot(), user, done, s);
    }
  }

  /** A video is listed for its owner at t exactly when the fold dates it no later than t. */
  lemma FoldDecidesListing(lib: Library, user: Id, channel: Option<Id>, visible: map<Id, Time>, id: Id, t: int)
    requires FirstVisible(visible, lib, user, lib.subscriptions.Keys)
    ensures Listed(lib, OfOwner(Some(user), channel), id, t) <==>
            && id in lib.videos && (channel.None? || lib.videos[id].channel == channel)
            && id in visible && visible[id] <= t
  {
    assert VisibleAmong(lib, user, lib.subscriptions.Keys, id, t) <==> exists s :: VisibleThrough(lib, user, s, id, t);
  }

  // ---- pages, as a client sees them ------------------------------------------------

  /** Digests of the two filters; only ever compared for equality. */
  datatype Digest = Digest(empty: string, ofChannel: Option<Id> -> string)

  function ScopeText(q: Query): string {
    match q
    case OfSource(source) => source
    case OfOwner(None, _) => "public"
    case OfOwner(Some(owner), _) => "owner:" + owner
  }

  function BindingOf(q: Query, digest: Digest): C.Binding {
    match q
    case OfSource(source) => C.Binding(source, digest.empty, C.SOURCE_SORT)
    case OfOwner(_, channel) =>
      C.Binding(ScopeText(q), digest.ofChannel(if channel == Some("") then None else channel), C.EXPLORE_SORT)
  }

  function DecodeCursor(c: C.Codec, q: Query, digest: Digest, cursor: Option<string>)
    : Result<Option<C.VideoCursor>, C.CursorError>
  {
    if q.OfSource? then C.DecodeSource(c, cursor, BindingOf(q, digest)) else C.DecodeExplore(c, cursor, BindingOf(q, digest))
  }

  function EncodeCursor(c: C.Codec, q: Query, digest: Digest, last: Key, snapshot: int): string
    requires |last.ranks| == if q.OfSource? then 1 else 2
  {
    if q.OfSource? then C.EncodeSource(c, last.ranks[0], last.id, snapshot, BindingOf(q, digest))
    else C.EncodeExplore(c, last.ranks[0], last.ranks[1], last.id, snapshot, BindingOf(q, digest))
  }

  datatype VideoPage = VideoPage(videos: seq<Key>, nextCursor: Option<string>, snapshot: int, total: nat)

  /** One request at time `now`: the snapshot comes from the cursor when there is one. */
  ghost function ServePage(c: C.Codec, lib: Library, q: Query, digest: Digest, cursor: Option<string>, limit: nat, now: Time)
    : Result<VideoPage, C.CursorError>
  {
    match DecodeCursor(c, q, digest, cursor)
    case Failure(e) => Failure(e)
    case Success(decoded) =>
      var snapshot: int := if decoded.Some? then decoded.value.snapshot else now;
      var listing := Listing(lib, q, snapshot);
      var key := if decoded.Some? then Some(Key(decoded.value.ranks, decoded.value.id)) else None;
      var page := GetPage(listing, true, key, limit);
      PageKeys(listing, q, key, limit);
      Success(VideoPage(page.items,
        if page.next.Some? then Some(EncodeCursor(c, q, digest, page.next.value, snapshot)) else None,
        snapshot, page.total))
  }

  ghost predicate WellKeyed(listing: set<Key>, q: Query) {
    forall k :: k in listing ==> |k.ranks| == if q.OfSource? then 1 else 2
  }

  lemma PageKeys(listing: set<Key>, q: Query, key: Option<Key>, limit: nat)
    requires WellKeyed(listing, q)
    ensures GetPage(listing, true, key, limit).next.Some? ==>
              GetPage(listing, true, key, limit).next.value in listing
  {
    if limit >= 1 {
      PageIsFirstBeyond(listing, true, key, limit);
      var page := GetPage(listing, true, key, limit);
      if page.next.Some? {
        assert page.next.value in page.items;
      }
    }
  }

  // ---- following next_cursor from page to page --------------------------------------

  datatype TextWalk = TextWalk(videos: seq<Key>, totals: seq<nat>, finished: bool)

  /** The first request is made at `now`; runs[i] happens before the request after it. */
  ghost function ServeAll(c: C.Codec, lib: Library, runs: seq<seq<Change>>, q: Query, digest: Digest,
                          cursor: Option<string>, limit: nat, now: Time): TextWalk
    decreases |runs|
  {
    match ServePage(c, lib, q, digest, cursor, limit, now)
    case Failure(_) => TextWalk([], [], false)
    case Success(page) =>
      if page.nextCursor.None? || runs == [] then TextWalk(page.videos, [page.total], page.nextCursor.None?)
      else
        var rest := ServeAll(c, ApplyAll(lib, runs[0]), runs[1..], q, digest, page.nextCursor, limit, now);
        TextWalk(page.videos + rest.videos, [page.total] + rest.totals, rest.finished)
  }

  ghost predicate QuietRuns(lib: Library, q: Query, runs: seq<seq<Change>>, t: int)
    decreases |runs|
  {
    runs == [] || (QuietRun(lib, q, runs[0], t) && QuietRuns(ApplyAll(lib, runs[0]), q, runs[1..], t))
  }

  ghost predicate IdsPresent(listing: set<Key>) {
    forall k :: k in listing ==> k.id != ""
  }

  /** The cursor text carries the key of the last video and the snapshot, exactly. */
  lemma CursorCarries(c: C.Codec, q: Query, digest: Digest, last: Key, snapshot: int)
    requires C.Lawful(c) && last.id != "" && |last.ranks| == if q.OfSource? then 1 else 2
    ensures DecodeCursor(c, q, digest, Some(EncodeCursor(c, q, digest, last, snapshot)))
            == Success(Some(C.VideoCursor(last.ranks, last.id, snapshot)))
  {
    if q.OfSource? {
      C.SourceCursorRoundTrip(c, last.ranks[0], last.id, snapshot, BindingOf(q, digest), BindingOf(q, digest));
      assert last.ranks == [last.ranks[0]];
    } else {
      C.ExploreCursorRoundTrip(c, last.ranks[0], last.ranks[1], last.id, snapshot, BindingOf(q, digest), BindingOf(q, digest));
      assert last.ranks == [last.ranks[0], last.ranks[1]];
    }
  }

  function Repeat<T>(x: T, n: nat): (s: seq<T>)
    ensures |s| == n && forall i :: 0 <= i < n ==> s[i] == x
  {
    seq(n, _ => x)
  }

  /** The cursor text stands for this key and snapshot. */
  ghost predicate Opens(c: C.Codec, q: Query, digest: Digest, cursor: Option<string>, key: Option<Key>, snapshot: int,
                        now: Time) {
    && DecodeCursor(c, q, digest, cursor)
       == Success(if key.Some? then Some(C.VideoCursor(key.value.ranks, key.value.id, snapshot)) else None)
    && (key.None? ==> snapshot == now)
  }

  ghost predicate Serves(c: C.Codec, q: Query, digest: Digest, served: VideoPage, page: PageResult, snapshot: int, now: Time) {
    && served.videos == page.items && served.total == page.total
    && (served.nextCursor.Some? <==> page.next.Some?)
    && (page.next.Some? ==> Opens(c, q, digest, served.nextCursor, page.next, snapshot, now))
  }

  /** One request serves the abstract page. */
  lemma PageServed(c: C.Codec, lib: Library, q: Query, digest: Digest, cursor: Option<string>, key: Option<Key>,
                   limit: nat, snapshot: int, now: Time)
    requires C.Lawful(c) && IdsPresent(Listing(lib, q, snapshot))
    requires Opens(c, q, digest, cursor, key, snapshot, now)
    ensures ServePage(c, lib, q, digest, cursor, limit, now).Success?
    ensures Serves(c, q, digest, ServePage(c, lib, q, digest, cursor, limit, now).value,
                   GetPage(Listing(lib, q, snapshot), true, key, limit), snapshot, now)
  {
    var listing := Listing(lib, q, snapshot);
    PageKeys(listing, q, key, limit);
    var page := GetPage(listing, true, key, limit);
    if page.next.Some? {
      CursorCarries(c, q, digest, page.next.value, snapshot);
    }
  }

  ghost predicate SameWalk(served: TextWalk, walk: Walk, total: nat) {
    && served.videos == walk.items && served.finished == walk.finished
    && forall i :: 0 <= i < |served.totals| ==> served.totals[i] == total
  }

  /** One step of both walks, whatever the pages hold. */
  lemma StepTogether(page: PageResult, rest: TextWalk, restWalk: Walk)
    requires SameWalk(rest, restWalk, page.total)
    ensures SameWalk(TextWalk(page.items + rest.videos, [page.total] + rest.totals, rest.finished),
                     Walk(page.items + restWalk.items, [page.items] + restWalk.pages, restWalk.finished), page.total)
  {
  }

  lemma FollowOnce(listing: set<Key>, n: nat, key: Option<Key>, limit: nat)
    ensures var page := GetPage(listing, true, key, limit);
            var walk := Follow(Repeat(listing, n + 1), true, key, limit);
            var rest := Follow(Repeat(listing, n), true, page.next, limit);
            if page.next.None? then walk == Walk(page.items, [page.items], true)
            else walk == Walk(page.items + rest.items, [page.items] + rest.pages, rest.finished)
  {
    assert Repeat(listing, n + 1)[1..] == Repeat(listing, n);
  }

  lemma FollowNothing(listing: set<Key>, key: Option<Key>, limit: nat)
    ensures Follow(Repeat(listing, 0), true, key, limit) == Walk([], [], false)
  {
  }

  /** The walk of listings ends here too. */
  lemma FollowLast(listing: set<Key>, n: nat, key: Option<Key>, limit: nat)
    requires GetPage(listing, true, key, limit).next.None? || n == 0
    ensures var page := GetPage(listing, true, key, limit);
            Follow(Repeat(listing, n + 1), true, key, limit) == Walk(page.items, [page.items], page.next.None?)
  {
    FollowOnce(listing, n, key, limit);
    var page := GetPage(listing, true, key, limit);
    FollowNothing(listing, page.next, limit);
    assert page.items + [] == page.items;
  }

  /** The request that ends the walk. */
  lemma ServeLast(c: C.Codec, lib: Library, runs: seq<seq<Change>>, q: Query, digest: Digest,
                  cursor: Option<string>, key: Option<Key>, limit: nat, snapshot: int, now: Time, listing: set<Key>)
    requires C.Lawful(c) && limit >= 1
    requires listing == Listing(lib, q, snapshot) && IdsPresent(listing)
    requires Opens(c, q, digest, cursor, key, snapshot, now)
    requires GetPage(listing, true, key, limit).next.None? || runs == []
    ensures var page := GetPage(listing, true, key, limit);
            ServeAll(c, lib, runs, q, digest, cursor, limit, now) == TextWalk(page.items, [page.total], page.next.None?)
  {
    PageServed(c, lib, q, digest, cursor, key, limit, snapshot, now);
  }

  /** A request that is followed by another. */
  lemma ServeMore(c: C.Codec, lib: Library, runs: seq<seq<Change>>, q: Query, digest: Digest,
                  cursor: Option<string>, key: Option<Key>, limit: nat, snapshot: int, now: Time, listing: set<Key>)
      returns (next: Option<string>)
    requires C.Lawful(c) && limit >= 1
    requires listing == Listing(lib, q, snapshot) && IdsPresent(listing)
    requires Opens(c, q, digest, cursor, key, snapshot, now)
    requires GetPage(listing, true, key, limit).next.Some? && runs != []
    ensures var page := GetPage(listing, true, key, limit);
            var rest := ServeAll(c, ApplyAll(lib, runs[0]), runs[1..], q, digest, next, limit, now);
            && Opens(c, q, digest, next, page.next, snapshot, now)
            && ServeAll(c, lib, runs, q, digest, cursor, limit, now)
               == TextWalk(page.items + rest.videos, [page.total] + rest.totals, rest.finished)
  {
    PageServed(c, lib, q, digest, cursor, key, limit, snapshot, now);
    next := ServePage(c, lib, q, digest, cursor, limit, now).value.nextCursor;
  }

  /** What the walk of listings does on its side of one request. */
  lemma FollowMore(listing: set<Key>, n: nat, key: Option<Key>, limit: nat, all: TextWalk, rest: TextWalk)
    requires limit >= 1 && GetPage(listing, true, key, limit).next.Some?
    requires var page := GetPage(listing, true, key, limit);
             && all == TextWalk(page.items + rest.videos, [page.total] + rest.totals, rest.finished)
             && SameWalk(rest, Follow(Repeat(listing, n), true, page.next, limit), |listing|)
    ensures SameWalk(all, Follow(Repeat(listing, n + 1), true, key, limit), |listing|)
  {
    PageTotal(listing, key, limit);
    FollowOnce(listing, n, key, limit);
    var page := GetPage(listing, true, key, limit);
    StepTogether(page, rest, Follow(Repeat(listing, n), true, page.next, limit));
  }

  lemma FollowEnds(listing: set<Key>, n: nat, key: Option<Key>, limit: nat, all: TextWalk)
    requires limit >= 1 && (GetPage(listing, true, key, limit).next.None? || n == 0)
    requires var page := GetPage(listing, true, key, limit);
             all == TextWalk(page.items, [page.total], page.next.None?)
    ensures SameWalk(all, Follow(Repeat(listing, n + 1), true, key, limit), |listing|)
  {
    PageTotal(listing, key, limit);
    FollowLast(listing, n, key, limit);
  }

  lemma {:induction false} ServeAllFollows(c: C.Codec, lib: Library, runs: seq<seq<Change>>, q: Query, digest: Digest,
                                           cursor: Option<string>, key: Option<Key>, limit: nat, snapshot: int, now: Time,
                                           listing: set<Key>)
    requires C.Lawful(c) && Recorded(lib) && (q.OfSource? ==> KnownSource(lib, q.source))
    requires QuietRuns(lib, q, runs, snapshot) && limit >= 1
    requires listing == Listing(lib, q, snapshot) && IdsPresent(listing)
    requires Opens(c, q, digest, cursor, key, snapshot, now)
    ensures SameWalk(ServeAll(c, lib, runs, q, digest, cursor, limit, now),
                     Follow(Repeat(listing, |runs| + 1), true, key, limit), |listing|)
    decreases |runs|
  {
    var all := ServeAll(c, lib, runs, q, digest, cursor, limit, now);
    if GetPage(listing, true, key, limit).next.None? || runs == [] {
      ServeLast(c, lib, runs, q, digest, cursor, key, limit, snapshot, now, listing);
      FollowEnds(listing, |runs|, key, limit, all);
    } else {
      ServeRest(c, lib, runs, q, digest, cursor, key, limit, snapshot, now, listing);
    }
  }

  lemma {:induction false} ServeRest(c: C.Codec, lib: Library, runs: seq<seq<Change>>, q: Query, digest: Digest,
                                     cursor: Option<string>, key: Option<Key>, limit: nat, snapshot: int, now: Time,
                                     listing: set<Key>)
    requires C.Lawful(c) && Recorded(lib) && (q.OfSource? ==> KnownSource(lib, q.source))
    requires QuietRuns(lib, q, runs, snapshot) && limit >= 1
    requires listing == Listing(lib, q, snapshot) && IdsPresent(listing)
    requires Opens(c, q, digest, cursor, key, snapshot, now)
    requires GetPage(listing, true, key, limit).next.Some? && runs != []
    ensures SameWalk(ServeAll(c, lib, runs, q, digest, cursor, limit, now),
                     Follow(Repeat(listing, |runs| + 1), true, key, limit), |listing|)
    decreases |runs|, 0
  {
    var after, more := ApplyAll(lib, runs[0]), runs[1..];
    QuietRunKeepsListing(lib, runs[0], q, snapshot);
    var next := ServeMore(c, lib, runs, q, digest, cursor, key, limit, snapshot, now, listing);
    ServeAllFollows(c, after, more, q, digest, next, GetPage(listing, true, key, limit).next, limit, snapshot, now, listing);
    assert |more| + 1 == |runs|;
    FollowMore(listing, |runs|, key, limit, ServeAll(c, lib, runs, q, digest, cursor, limit, now),
               ServeAll(c, after, more, q, digest, next, limit, now));
  }

  lemma PageTotal(listing: set<Key>, key: Option<Key>, limit: nat)
    requires limit >= 1
    ensures GetPage(listing, true, key, limit).total == |listing|
  {
    PageIsFirstBeyond(listing, true, key, limit);
  }

  /** When a video was published, or fetched, if that is not known. */
  function DateOf(v: Video): Time {
    match v.published
    case Some(time) => time
    case None => v.fetched
  }

  /** The order of a listing, newest first: by date, in an owner's listing then by fetch time, then by id,
      the greater first. */
  predicate ComesFirst(q: Query, a: Id, x: Video, b: Id, y: Video) {
    if DateOf(x) != DateOf(y) then DateOf(x) > DateOf(y)
    else if q.OfOwner? && x.fetched != y.fetched then x.fetched > y.fetched
    else Before(b, a)
  }

  ghost predicate NewestFirst(lib: Library, q: Query, served: seq<Key>) {
    && (forall i :: 0 <= i < |served| ==> served[i].id in lib.videos)
    && (forall i, j :: 0 <= i < j < |served| ==>
          ComesFirst(q, served[i].id, lib.videos[served[i].id], served[j].id, lib.videos[served[j].id]))
  }

  lemma LessMeans(q: Query, a: Id, x: Video, b: Id, y: Video)
    requires Less(KeyOf(q, b, y), KeyOf(q, a, x))
    ensures ComesFirst(q, a, x, b, y)
  {
    var k, l := KeyOf(q, a, x), KeyOf(q, b, y);
    assert k.ranks[0] == DateOf(x) && l.ranks[0] == DateOf(y);
    if q.OfOwner? && DateOf(x) == DateOf(y) && x.fetched != y.fetched {
      assert k.ranks[..1] == l.ranks[..1];
      RanksLessMeans(l.ranks, k.ranks, 1);
    }
  }

  lemma SortedIsNewestFirst(lib: Library, q: Query, t: int, served: seq<Key>)
    requires StrictTotal(Direction(true)) && served == Sorted(Listing(lib, q, t), Direction(true))
    ensures NewestFirst(lib, q, served)
  {
    SortedInOrder(Listing(lib, q, t), Direction(true));
    forall i | 0 <= i < |served|
      ensures served[i].id in lib.videos && served[i] == KeyOf(q, served[i].id, lib.videos[served[i].id])
    {
      ListingHas(lib, q, t, served[i]);
    }
    forall i, j | 0 <= i < j < |served|
      ensures ComesFirst(q, served[i].id, lib.videos[served[i].id], served[j].id, lib.videos[served[j].id])
    {
      assert Direction(true)(served[i], served[j]);
      LessMeans(q, served[i].id, lib.videos[served[i].id], served[j].id, lib.videos[served[j].id]);
    }
  }

  /** Paging is exact while the collector works: following next_cursor from the first page delivers
      the listing as it was at the first request, newest first, each video once, with a constant total. */
  lemma PagesReproduceSnapshot(c: C.Codec, lib: Library, runs: seq<seq<Change>>, q: Query, digest: Digest, limit: nat,
                               now: Time)
    requires C.Lawful(c) && Recorded(lib) && (q.OfSource? ==> KnownSource(lib, q.source))
    requires QuietRuns(lib, q, runs, now) && IdsPresent(Listing(lib, q, now)) && limit >= 1
    requires |runs| >= |Listing(lib, q, now)|
    ensures StrictTotal(Direction(true))
    ensures var served := ServeAll(c, lib, runs, q, digest, None, limit, now);
            && served.finished
            && served.videos == Sorted(Listing(lib, q, now), Direction(true))
            && NewestFirst(lib, q, served.videos)
            && forall i :: 0 <= i < |served.totals| ==> served.totals[i] == |served.videos|
  {
    DirectionIsTotal(true);
    var listing := Listing(lib, q, now);
    ServeAllFollows(c, lib, runs, q, digest, None, None, limit, now, now, listing);
    PagingIsExact(Repeat(listing, |runs| + 1), listing, true, limit);
    SortedIsNewestFirst(lib, q, now, Sorted(listing, Direction(true)));
  }
}
