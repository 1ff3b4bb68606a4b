/** How collection configs widen and what a finished job covers:
    apps/api/monitube_api/collection_policy.py */
module CollectionPolicy {
  import opened Common

  datatype SourceType = Channel | Keyword | DirectVideo

  /** The settings that decide breadth, each possibly absent; `identity` holds everything else. */
  datatype Config = Config(
    includeComments: Option<bool>,
    collectAllComments: Option<bool>,
    maxCommentPages: Option<int>,
    collectAllVideos: Option<bool>,
    maxVideos: Option<int>,
    maxPagesPerRun: Option<int>,
    identity: map<string, string>)

  /** A coverage record; the optional limits exist only for the source types that have them. */
  datatype Coverage = Coverage(
    complete: bool,
    includeComments: bool,
    collectAllComments: bool,
    maxCommentPages: int,
    collectAllVideos: bool,
    maxVideos: Option<int>,
    maxPagesPerRun: Option<int>)

  /** The empty record of a target that never completed. */
  const NO_COVERAGE := Coverage(false, false, false, 0, false, None, None)

  /** `value or fallback`: absent and zero both fall through. */
  function Or(value: Option<int>, fallback: int): int {
    if value.None? || value.value == 0 then fallback else value.value
  }

  function Flag(value: Option<bool>): bool {
    value.GetOr(false)
  }

  function Desired(kind: SourceType, c: Config): Coverage {
    Coverage(
      false,
      Flag(c.includeComments),
      Flag(c.includeComments) && Flag(c.collectAllComments),
      Or(c.maxCommentPages, 1),
      kind.Channel? && Flag(c.collectAllVideos),
      if kind.Channel? then Some(Or(c.maxVideos, 50)) else None,
      if kind.Keyword? then Some(Or(c.maxPagesPerRun, 1)) else None)
  }

  /** The first config that has the key keeps it. */
  function SetDefault<T>(current: Option<T>, incoming: Option<T>): Option<T> {
    if current.Some? then current else incoming
  }

  function Merge(kind: SourceType, current: Config, incoming: Config): Config {
    Config(
      Some(Flag(current.includeComments) || Flag(incoming.includeComments)),
      Some(Flag(current.collectAllComments) || Flag(incoming.collectAllComments)),
      Some(Max(Or(current.maxCommentPages, 1), Or(incoming.maxCommentPages, 1))),
      if kind.Channel? then Some(Flag(current.collectAllVideos) || Flag(incoming.collectAllVideos))
      else SetDefault(current.collectAllVideos, incoming.collectAllVideos),
      if kind.Channel? then Some(Max(Or(current.maxVideos, 1), Or(incoming.maxVideos, 1)))
      else SetDefault(current.maxVideos, incoming.maxVideos),
      if kind.Keyword? then Some(Max(Or(current.maxPagesPerRun, 1), Or(incoming.maxPagesPerRun, 1)))
      else SetDefault(current.maxPagesPerRun, incoming.maxPagesPerRun),
      incoming.identity + current.identity)
  }

  predicate Reaches(limit: Option<int>, needed: Option<int>) {
    needed.None? || Or(limit, 0) >= needed.value
  }

  predicate Satisfies(coverage: Coverage, desired: Coverage) {
    && coverage.complete
    && (desired.includeComments ==> coverage.includeComments)
    && (desired.collectAllComments ==> coverage.collectAllComments)
    && (desired.collectAllVideos ==> coverage.collectAllVideos)
    && Reaches(coverage.maxVideos, desired.maxVideos)
    && Reaches(coverage.maxPagesPerRun, desired.maxPagesPerRun)
    && (desired.includeComments ==> coverage.maxCommentPages >= Or(Some(desired.maxCommentPages), 1))
  }

  /** The immutable scope a job was created with. */
  datatype Scope = Scope(includeComments: bool, maxVideos: Option<int>, maxCommentPages: Option<int>)

  function ScopeOf(kind: SourceType, c: Config): Scope {
    var desired := Desired(kind, c);
    Scope(desired.includeComments, desired.maxVideos, Some(desired.maxCommentPages))
  }

  function JobCoverage(scope: Scope, kind: SourceType, c: Config): Coverage {
    Coverage(
      false,
      scope.includeComments,
      scope.includeComments && Flag(c.collectAllComments),
      Or(scope.maxCommentPages, Or(c.maxCommentPages, 1)),
      kind.Channel? && Flag(c.collectAllVideos),
      if kind.Channel? then Some(Or(scope.maxVideos, Or(c.maxVideos, 50))) else None,
      if kind.Keyword? then Some(Or(c.maxPagesPerRun, 1)) else None)
  }

  function Completed(coverage: Coverage): Coverage {
    coverage.(complete := true)
  }

  // ---- what a coverage stands for -----------------------------------------------------

  /** A piece of collection work, each counted from the newest or the first: an upload of a channel, a
      page of the comments of a video, a page of search results. */
  datatype Work = Upload(index: nat) | CommentPage(index: nat) | SearchPage(index: nat)

  /** Inside a limit of the request; absent and zero stand for the fallback. */
  predicate WithinLimit(limit: Option<int>, fallback: int, index: nat) {
    match limit
    case None => index < fallback
    case Some(n) => if n == 0 then index < fallback else index < n
  }

  /** The work a request asks for. */
  predicate Asks(kind: SourceType, c: Config, w: Work) {
    match w
    case Upload(i) => kind == Channel && (c.collectAllVideos == Some(true) || WithinLimit(c.maxVideos, 50, i))
    case CommentPage(i) =>
      c.includeComments == Some(true) && (c.collectAllComments == Some(true) || WithinLimit(c.maxCommentPages, 1, i))
    case SearchPage(i) => kind == Keyword && WithinLimit(c.maxPagesPerRun, 1, i)
  }

  /** The work of a job: its own scope where it sets a limit, the config of its source where not. */
  predicate DoneBy(scope: Scope, kind: SourceType, c: Config, w: Work) {
    match w
    case Upload(i) =>
      && kind == Channel
      && (c.collectAllVideos == Some(true)
          || if scope.maxVideos == None || scope.maxVideos == Some(0) then WithinLimit(c.maxVideos, 50, i)
             else i < scope.maxVideos.value)
    case CommentPage(i) =>
      && scope.includeComments
      && (c.collectAllComments == Some(true)
          || if scope.maxCommentPages == None || scope.maxCommentPages == Some(0) then WithinLimit(c.maxCommentPages, 1, i)
             else i < scope.maxCommentPages.value)
    case SearchPage(i) => kind == Keyword && WithinLimit(c.maxPagesPerRun, 1, i)
  }

  /** The work that a coverage record stands for. */
  predicate Includes(c: Coverage, w: Work) {
    match w
    case Upload(i) => c.collectAllVideos || (c.maxVideos.Some? && i < c.maxVideos.value)
    case CommentPage(i) => c.includeComments && (c.collectAllComments || i < c.maxCommentPages)
    case SearchPage(i) => c.maxPagesPerRun.Some? && i < c.maxPagesPerRun.value
  }

  /** The desired coverage of a config is the work it asks for. */
  lemma DesiredIsAsked(kind: SourceType, c: Config, w: Work)
    ensures Includes(Desired(kind, c), w) <==> Asks(kind, c, w)
  {
  }

  /** The coverage of a job is the work it does: neither more nor less. */
  lemma JobCoverageIsDone(scope: Scope, kind: SourceType, c: Config, w: Work)
    ensures Includes(JobCoverage(scope, kind, c), w) <==> DoneBy(scope, kind, c, w)
  {
  }

  /** All the work the config asks for is in a complete record. */
  ghost predicate Collected(c: Coverage, kind: SourceType, config: Config) {
    c.complete && forall w :: Asks(kind, config, w) ==> Includes(c, w)
  }

  /** Where everything was collected, a limit has to be reached all the same. */
  ghost predicate LimitsReached(c: Coverage, kind: SourceType, config: Config) {
    && (kind == Channel && c.collectAllVideos ==>
          forall i: nat :: WithinLimit(config.maxVideos, 50, i) ==> c.maxVideos.Some? && i < c.maxVideos.value)
    && (config.includeComments == Some(true) && c.collectAllComments ==>
          forall i: nat :: WithinLimit(config.maxCommentPages, 1, i) ==> i < c.maxCommentPages)
  }

  /** No limit of the config is negative. */
  predicate Positive(kind: SourceType, c: Config) {
    && WithinLimit(c.maxCommentPages, 1, 0)
    && (kind == Channel ==> WithinLimit(c.maxVideos, 50, 0))
    && (kind == Keyword ==> WithinLimit(c.maxPagesPerRun, 1, 0))
  }

  /** Satisfied means collected: a coverage that satisfies a request is complete and includes all the
      work the request asks for. */
  lemma SatisfiedIsCollected(c: Coverage, kind: SourceType, config: Config)
    requires Satisfies(c, Desired(kind, config))
    ensures Collected(c, kind, config)
  {
    forall w | Asks(kind, config, w) ensures Includes(c, w) {
      DesiredIsAsked(kind, config, w);
    }
  }

  /** And the other way round, if the limits are reached too. */
  lemma CollectedSatisfies(c: Coverage, kind: SourceType, config: Config)
    requires Collected(c, kind, config) && LimitsReached(c, kind, config) && Positive(kind, config)
    ensures Satisfies(c, Desired(kind, config))
  {
    var d := Desired(kind, config);
    if d.includeComments {
      CommentsSatisfy(c, kind, config);
    }
    if kind == Channel {
      VideosSatisfy(c, config);
    }
    if kind == Keyword {
      assert Asks(kind, config, SearchPage(d.maxPagesPerRun.value - 1));
    }
  }

  lemma CommentsSatisfy(c: Coverage, kind: SourceType, config: Config)
    requires Collected(c, kind, config) && LimitsReached(c, kind, config) && Positive(kind, config)
    requires config.includeComments == Some(true)
    ensures c.includeComments && c.maxCommentPages >= Desired(kind, config).maxCommentPages
    ensures Desired(kind, config).collectAllComments ==> c.collectAllComments
  {
    var last := Desired(kind, config).maxCommentPages - 1;
    assert WithinLimit(config.maxCommentPages, 1, last);
    assert Asks(kind, config, CommentPage(last));
    assert Includes(c, CommentPage(last));
    if config.collectAllComments == Some(true) && !c.collectAllComments {
      assert Asks(kind, config, CommentPage(c.maxCommentPages));
    }
  }

  lemma VideosSatisfy(c: Coverage, config: Config)
    requires Collected(c, Channel, config) && LimitsReached(c, Channel, config) && Positive(Channel, config)
    ensures c.maxVideos.Some? && c.maxVideos.value >= Desired(Channel, config).maxVideos.value
    ensures Desired(Channel, config).collectAllVideos ==> c.collectAllVideos
  {
    var last := Desired(Channel, config).maxVideos.value - 1;
    assert WithinLimit(config.maxVideos, 50, last);
    assert Asks(Channel, config, Upload(last));
    assert Includes(c, Upload(last));
    if config.collectAllVideos == Some(true) && !c.collectAllVideos {
      assert Asks(Channel, config, Upload(c.maxVideos.value));
    }
  }

  // ---- merging only widens -----------------------------------------------------------

  /** A finished collection of breadth `wide` would satisfy a request for `narrow`. */
  predicate Covers(wide: Coverage, narrow: Coverage) {
    Satisfies(Completed(wide), narrow)
  }

  /** A channel limit was given; the request contract always supplies one. */
  predicate HasLimit(kind: SourceType, c: Config) {
    kind.Channel? ==> c.maxVideos.Some? && c.maxVideos.value >= 1
  }

  /** Merging covers the incoming request, except that an absent channel limit counts as 1 when
      merging but as 50 when asked for: then the other side has to supply it. */
  lemma MergeCoversIncoming(kind: SourceType, current: Config, incoming: Config)
    ensures Covers(Desired(kind, Merge(kind, current, incoming)), Desired(kind, incoming)) <==>
            (kind.Channel? ==> Or(incoming.maxVideos, 0) != 0 || Or(current.maxVideos, 1) >= 50)
  {
  }

  lemma MergeCoversCurrent(kind: SourceType, current: Config, incoming: Config)
    ensures Covers(Desired(kind, Merge(kind, current, incoming)), Desired(kind, current)) <==>
            (kind.Channel? ==> Or(current.maxVideos, 0) != 0 || Or(incoming.maxVideos, 1) >= 50)
  {
  }

  /** In terms of work: the merged config asks for the uploads and search pages of either request, and
      for the comment pages of either, of both when both want comments. */
  lemma MergeAsksForBoth(kind: SourceType, a: Config, b: Config, w: Work)
    requires HasLimit(kind, a) && HasLimit(kind, b)
    ensures Asks(kind, a, w) || Asks(kind, b, w) ==> Asks(kind, Merge(kind, a, b), w)
    ensures Asks(kind, Merge(kind, a, b), w) && (w.CommentPage? ==> Flag(a.includeComments) && Flag(b.includeComments)) ==>
              Asks(kind, a, w) || Asks(kind, b, w)
  {
  }

  lemma MergeAsksForIncoming(kind: SourceType, a: Config, b: Config, w: Work)
    requires HasLimit(kind, b) && Asks(kind, b, w)
    ensures Asks(kind, Merge(kind, a, b), w)
  {
  }

  /** A setting that does not count for a type keeps the first value it was given. */
  lemma ForeignSettingsStay(kind: SourceType, a: Config, b: Config)
    ensures kind != Channel && a.maxVideos.Some? ==> Merge(kind, a, b).maxVideos == a.maxVideos
    ensures kind != Channel && a.maxVideos.None? ==> Merge(kind, a, b).maxVideos == b.maxVideos
    ensures kind != Channel && a.collectAllVideos.Some? ==> Merge(kind, a, b).collectAllVideos == a.collectAllVideos
    ensures kind != Channel && a.collectAllVideos.None? ==> Merge(kind, a, b).collectAllVideos == b.collectAllVideos
    ensures kind != Keyword && a.maxPagesPerRun.Some? ==> Merge(kind, a, b).maxPagesPerRun == a.maxPagesPerRun
    ensures kind != Keyword && a.maxPagesPerRun.None? ==> Merge(kind, a, b).maxPagesPerRun == b.maxPagesPerRun
  {
  }

  /** What a target is never changes: the settings that identify it keep their first values. */
  lemma {:induction false} FirstIdentityStays(kind: SourceType, first: Config, rest: seq<Config>, k: string)
    ensures k in first.identity ==>
              k in MergeAll(kind, first, rest).identity && MergeAll(kind, first, rest).identity[k] == first.identity[k]
    ensures k in MergeAll(kind, first, rest).identity <==> k in first.identity || exists c :: c in rest && k in c.identity
  {
    if rest != [] {
      FirstIdentityStays(kind, first, rest[..|rest| - 1], k);
      assert rest == rest[..|rest| - 1] + [rest[|rest| - 1]];
    }
  }

  /** As breadth, the order in which requests arrive does not matter. */
  lemma MergeOrderIsIrrelevant(kind: SourceType, a: Config, b: Config, c: Config)
    ensures Desired(kind, Merge(kind, a, b)) == Desired(kind, Merge(kind, b, a))
    ensures Desired(kind, Merge(kind, Merge(kind, a, b), c)) == Desired(kind, Merge(kind, a, Merge(kind, b, c)))
  {
  }

  lemma CoversTransitive(a: Coverage, b: Coverage, c: Coverage)
    requires Covers(a, b) && Covers(b, c)
    requires c.maxVideos.Some? ==> b.maxVideos.Some?
    requires c.maxPagesPerRun.Some? ==> b.maxPagesPerRun.Some?
    requires c.includeComments ==> b.maxCommentPages != 0
    ensures Covers(a, c)
  {
  }

  /** A target's config after a run of submissions, the first one first. */
  function MergeAll(kind: SourceType, first: Config, rest: seq<Config>): Config {
    if rest == [] then first
    else Merge(kind, MergeAll(kind, first, rest[..|rest| - 1]), rest[|rest| - 1])
  }

  ghost predicate AllLimited(kind: SourceType, configs: seq<Config>) {
    forall i :: 0 <= i < |configs| ==> HasLimit(kind, configs[i])
  }

  /** However many requests arrive, and in whatever order, the merged config covers every one. */
  lemma {:induction false} MergeAllCoversEach(kind: SourceType, first: Config, rest: seq<Config>, i: nat)
    requires HasLimit(kind, first) && AllLimited(kind, rest) && i <= |rest|
    ensures HasLimit(kind, MergeAll(kind, first, rest))
    ensures Covers(Desired(kind, MergeAll(kind, first, rest)), Desired(kind, if i == 0 then first else rest[i - 1]))
  {
    if rest == [] {
      MergeCoversCurrent(kind, first, first);
    } else {
      var n := |rest| - 1;
      var before := MergeAll(kind, first, rest[..n]);
      MergeAllCoversEach(kind, first, rest[..n], if i <= n then i else 0);
      MergeCoversIncoming(kind, before, rest[n]);
      MergeCoversCurrent(kind, before, rest[n]);
      if i <= n {
        CoversTransitive(Desired(kind, Merge(kind, before, rest[n])), Desired(kind, before),
                         Desired(kind, if i == 0 then first else rest[i - 1]));
      }
    }
  }

  ghost predicate AnyComments(all: seq<Config>) {
    exists i :: 0 <= i < |all| && Flag(all[i].includeComments)
  }

  ghost predicate AnyAllComments(all: seq<Config>) {
    exists i :: 0 <= i < |all| && Flag(all[i].collectAllComments)
  }

  ghost predicate SomeLimit(all: seq<Config>, limit: Option<int>) {
    exists i :: 0 <= i < |all| && all[i].maxVideos == limit
  }

  /** The breadth of the merged config, given without reference to order: each flag is set when
      someone set it, and a channel limit is one that somebody asked for. */
  lemma {:induction false} MergeAllIsJoint(kind: SourceType, first: Config, rest: seq<Config>)
    requires HasLimit(kind, first) && AllLimited(kind, rest)
    ensures Flag(MergeAll(kind, first, rest).includeComments) <==> AnyComments([first] + rest)
    ensures Flag(MergeAll(kind, first, rest).collectAllComments) <==> AnyAllComments([first] + rest)
    ensures kind.Channel? ==> SomeLimit([first] + rest, MergeAll(kind, first, rest).maxVideos)
  {
    var all := [first] + rest;
    if rest == [] {
      assert all[0] == first;
    } else {
      var n := |rest| - 1;
      var before := [first] + rest[..n];
      MergeAllCoversEach(kind, first, rest[..n], 0);
      MergeAllIsJoint(kind, first, rest[..n]);
      assert all == before + [rest[n]];
      OneMore(before, rest[n]);
    }
  }

  lemma OneMore(before: seq<Config>, last: Config)
    ensures AnyComments(before + [last]) <==> AnyComments(before) || Flag(last.includeComments)
    ensures AnyAllComments(before + [last]) <==> AnyAllComments(before) || Flag(last.collectAllComments)
    ensures forall limit :: SomeLimit(before + [last], limit) <==> SomeLimit(before, limit) || last.maxVideos == limit
  {
    var all := before + [last];
    assert all[|before|] == last;
    assert forall i :: 0 <= i < |before| ==> all[i] == before[i];
  }

  // ---- but not to the least upper bound ----------------------------------------------

  /** The comment settings of `b` go no further than those of `a`. */
  predicate CommentSettingsWithin(b: Config, a: Config) {
    && (Flag(b.collectAllComments) ==> Flag(a.collectAllComments))
    && Or(b.maxCommentPages, 1) <= Or(a.maxCommentPages, 1)
  }

  /** A request without comments brings no comment settings that go beyond those of the other. */
  predicate Tight(a: Config, b: Config) {
    && (Flag(a.includeComments) && !Flag(b.includeComments) ==> CommentSettingsWithin(b, a))
    && (Flag(b.includeComments) && !Flag(a.includeComments) ==> CommentSettingsWithin(a, b))
  }

  ghost predicate IsLeast(a: Coverage, b: Coverage, merged: Coverage) {
    forall c :: Covers(c, a) && Covers(c, b) ==> Covers(c, merged)
  }

  /** Merging is the least upper bound exactly when settings that only matter with comments are not
      picked up from a request that wants no comments. */
  lemma MergeIsLeastIffTight(kind: SourceType, a: Config, b: Config)
    requires HasLimit(kind, a) && HasLimit(kind, b)
    requires Or(a.maxCommentPages, 1) >= 1 && Or(b.maxCommentPages, 1) >= 1
    requires kind.Keyword? ==> Or(a.maxPagesPerRun, 1) >= 1 && Or(b.maxPagesPerRun, 1) >= 1
    ensures IsLeast(Desired(kind, a), Desired(kind, b), Desired(kind, Merge(kind, a, b))) <==> Tight(a, b)
  {
    var x, y, m := Desired(kind, a), Desired(kind, b), Desired(kind, Merge(kind, a, b));
    // The narrowest coverage that satisfies both requests.
    var c := m.(collectAllComments := x.collectAllComments || y.collectAllComments,
                maxCommentPages := Max(if x.includeComments then x.maxCommentPages else 1,
                                       if y.includeComments then y.maxCommentPages else 1));
    assert Covers(c, x) && Covers(c, y);
    if IsLeast(x, y, m) {
      assert Covers(c, m);
    }
  }

  // ---- two requests that show it -------------------------------------------------------

  function ChannelConfig(comments: bool, commentPages: int, videos: Option<int>): Config {
    Config(Some(comments), None, Some(commentPages), None, videos, None, map[])
  }

  /** A request without a channel limit asks for 50 videos; merged with one for 10, it gets 10. */
  lemma AbsentLimitIsLost()
    ensures var current, incoming := ChannelConfig(false, 1, Some(10)), ChannelConfig(false, 1, None);
            && Desired(Channel, incoming).maxVideos == Some(50)
            && Desired(Channel, Merge(Channel, current, incoming)).maxVideos == Some(10)
            && !Covers(Desired(Channel, Merge(Channel, current, incoming)), Desired(Channel, incoming))
  {
  }

  /** One page of comments is asked for; five are, after merging with a request that wants none. */
  lemma MergeOverasks()
    ensures var a, b := ChannelConfig(true, 1, Some(10)), ChannelConfig(false, 5, Some(10));
            && Desired(Channel, Merge(Channel, a, b)).maxCommentPages == 5
            && !IsLeast(Desired(Channel, a), Desired(Channel, b), Desired(Channel, Merge(Channel, a, b)))
  {
    MergeIsLeastIffTight(Channel, ChannelConfig(true, 1, Some(10)), ChannelConfig(false, 5, Some(10)));
  }

  // ---- a finished job covers the requests its scope was set for ------------------------

  /** Everything a job reads from the config when it completes is at least as wide as before. */
  predicate Widens(kind: SourceType, before: Config, after: Config) {
    && (Flag(before.collectAllComments) ==> Flag(after.collectAllComments))
    && (kind.Channel? && Flag(before.collectAllVideos) ==> Flag(after.collectAllVideos))
    && (kind.Keyword? ==> Or(after.maxPagesPerRun, 1) >= Or(before.maxPagesPerRun, 1))
  }

  /** A scope taken from a config covers exactly what the config asks for. */
  lemma ScopeCoversConfig(kind: SourceType, c: Config)
    ensures JobCoverage(ScopeOf(kind, c), kind, c) == Desired(kind, c)
  {
  }

  /** No request ever joins a job that is still running: a job's coverage is never complete. */
  lemma NeverJoins(scope: Scope, kind: SourceType, c: Config, desired: Coverage)
    ensures !Satisfies(JobCoverage(scope, kind, c), desired)
  {
  }
}
