/** Giving a target its resolved channel id, and merging it into the target that already has it:
    promote_channel_target in apps/api/monitube_api/infrastructure/memory_jobs.py */
module Promotion {
  import opened Common
  import opened CollectionPolicy
  import opened Jobs
  import opened Store
  import opened Sources

  /** The time of a membership that was never dated. */
  const EPOCH := 0

  // ---- what becomes of each table --------------------------------------------------------

  function MovedSource(s: Source, cur: Id, tgt: Id): Source {
    if s.target == Some(cur) then s.(target := Some(tgt)) else s
  }

  function MovedSources(sources: map<Id, Source>, cur: Id, tgt: Id): map<Id, Source> {
    map s | s in sources :: MovedSource(sources[s], cur, tgt)
  }

  /** A subscriber of the retiring target who also has a subscription to the surviving one. */
  predicate Absorbed(subs: map<Id, Subscription>, ids: map<(Id, Id), Id>, s: Id, cur: Id, tgt: Id) {
    s in subs && subs[s].target == cur && (subs[s].user, tgt) in ids
  }

  function MergedSubscription(subs: map<Id, Subscription>, ids: map<(Id, Id), Id>, s: Id, cur: Id, tgt: Id): Subscription
    requires s in subs
  {
    var sub := subs[s];
    if sub.target == cur then sub.(target := tgt)
    else if sub.target == tgt && (sub.user, cur) in ids && ids[(sub.user, cur)] in subs then
      sub.(enabled := sub.enabled || subs[ids[(sub.user, cur)]].enabled)
    else sub
  }

  function MergedSubscriptions(subs: map<Id, Subscription>, ids: map<(Id, Id), Id>, cur: Id, tgt: Id): map<Id, Subscription> {
    map s | s in subs && !Absorbed(subs, ids, s, cur, tgt) :: MergedSubscription(subs, ids, s, cur, tgt)
  }

  function MergedIds(ids: map<(Id, Id), Id>, cur: Id, tgt: Id): map<(Id, Id), Id> {
    map p | p in (ids.Keys + (set q | q in ids && q.1 == cur :: (q.0, tgt))) && p.1 != cur
      :: if p in ids then ids[p] else if (p.0, cur) in ids then ids[(p.0, cur)] else ""
  }

  /** The subscription a request of the retiring target goes on with. */
  function NewSubscription(subs: map<Id, Subscription>, ids: map<(Id, Id), Id>, s: Option<Id>, cur: Id, tgt: Id): Option<Id> {
    if s.Some? && Absorbed(subs, ids, s.value, cur, tgt) then Some(ids[(subs[s.value].user, tgt)]) else s
  }

  predicate KeyTaken(requests: map<Id, Request>, tgt: Id, r: Request) {
    exists o :: o in requests && requests[o].target == tgt && Keyed(requests[o]) && requests[o].user == r.user
      && requests[o].key == r.key
  }

  /** Requests move along; where both targets accepted the same user's key, the surviving target's
      request keeps it. */
  function MovedRequest(subs: map<Id, Subscription>, ids: map<(Id, Id), Id>, requests: map<Id, Request>, r: Request,
                        cur: Id, tgt: Id): Request {
    if r.target != cur then r
    else r.(target := tgt,
            subscription := NewSubscription(subs, ids, r.subscription, cur, tgt),
            key := if KeyTaken(requests, tgt, r) then None else r.key)
  }

  function MovedRequests(subs: map<Id, Subscription>, ids: map<(Id, Id), Id>, requests: map<Id, Request>, cur: Id,
                         tgt: Id): map<Id, Request> {
    map r | r in requests :: MovedRequest(subs, ids, requests, requests[r], cur, tgt)
  }

  /** An unfinished job of the retiring target is let go when the surviving target has its own. */
  function MovedJob(job: Job, cur: Id, tgt: Id, tgtActive: bool): Job {
    if job.target != Some(cur) then job
    else if tgtActive && !IsTerminal(job.state) then job.(target := None)
    else job.(target := Some(tgt))
  }

  ghost function MovedJobs(jobs: JobMap, cur: Id, tgt: Id): JobMap {
    map j | j in jobs :: MovedJob(jobs[j], cur, tgt, HasActive(jobs, tgt))
  }

  function MovedAliases(aliases: map<Alias, Id>, cur: Id, tgt: Id): map<Alias, Id> {
    map a | a in aliases :: if aliases[a] == cur then tgt else aliases[a]
  }

  function MergedVideos(videos: map<Id, set<Id>>, cur: Id, tgt: Id): map<Id, set<Id>> {
    (videos - {cur})[tgt := Members(videos, tgt) + Members(videos, cur)]
  }

  function SeenOr(seen: map<(Id, Id), int>, p: (Id, Id)): int {
    if p in seen then seen[p] else EPOCH
  }

  function MergedSeenAt(videos: map<Id, set<Id>>, seen: map<(Id, Id), int>, cur: Id, tgt: Id, p: (Id, Id)): int
  {
    if p.0 == tgt && p.1 in Members(videos, cur) then
      var moved := SeenOr(seen, (cur, p.1));
      if p in seen && seen[p] < moved then seen[p] else moved
    else SeenOr(seen, p)
  }

  function MergedSeen(videos: map<Id, set<Id>>, seen: map<(Id, Id), int>, cur: Id, tgt: Id): map<(Id, Id), int> {
    map p | p in (seen.Keys + (set v | v in Members(videos, cur) :: (tgt, v))) && !(p.0 == cur && p.1 in Members(videos, cur))
      :: MergedSeenAt(videos, seen, cur, tgt, p)
  }

  function MergedPins(pins: map<Id, Pin>, cur: Id, tgt: Id): map<Id, Pin> {
    if cur in pins && tgt !in pins then (pins - {cur})[tgt := pins[cur]] else pins - {cur}
  }

  /** Everything that named `cur` names `tgt` now, and `cur` is gone. */
  ghost function Merged(st: Store, cur: Id, tgt: Id): Store
    requires cur in st.targets
  {
    Tables(
      st.targets - {cur},
      st.keys - {KeyOf(st.targets[cur])},
      MovedAliases(st.aliases, cur, tgt),
      MovedSources(st.sources, cur, tgt),
      MergedSubscriptions(st.subscriptions, st.subscriptionIds, cur, tgt),
      MergedIds(st.subscriptionIds, cur, tgt),
      MovedRequests(st.subscriptions, st.subscriptionIds, st.requests, cur, tgt),
      MovedJobs(st.jobs, cur, tgt),
      MergedVideos(st.targetVideos, cur, tgt),
      MergedSeen(st.targetVideos, st.firstSeen, cur, tgt),
      MergedPins(st.pins, cur, tgt))
  }

  // The same, a few tables at a time.

  function MergePeople(st: Store, cur: Id, tgt: Id): Store {
    st.(subscriptions := MergedSubscriptions(st.subscriptions, st.subscriptionIds, cur, tgt),
        subscriptionIds := MergedIds(st.subscriptionIds, cur, tgt),
        requests := MovedRequests(st.subscriptions, st.subscriptionIds, st.requests, cur, tgt))
  }

  ghost function MergeWork(st: Store, cur: Id, tgt: Id): Store {
    st.(sources := MovedSources(st.sources, cur, tgt), jobs := MovedJobs(st.jobs, cur, tgt),
        aliases := MovedAliases(st.aliases, cur, tgt))
  }

  function MergeMembers(st: Store, cur: Id, tgt: Id): Store {
    st.(targetVideos := MergedVideos(st.targetVideos, cur, tgt),
        firstSeen := MergedSeen(st.targetVideos, st.firstSeen, cur, tgt))
  }

  function Retire(st: Store, cur: Id, tgt: Id): Store
    requires cur in st.targets
  {
    st.(targets := st.targets - {cur}, keys := st.keys - {KeyOf(st.targets[cur])}, pins := MergedPins(st.pins, cur, tgt))
  }

  lemma MergedInSteps(st: Store, cur: Id, tgt: Id)
    requires cur in st.targets
    ensures Merged(st, cur, tgt) == Retire(MergeMembers(MergeWork(MergePeople(st, cur, tgt), cur, tgt), cur, tgt), cur, tgt)
  {
  }

  function Renamed(st: Store, t: Id, key: string): Store
    requires t in st.targets
  {
    st.(keys := (st.keys - {KeyOf(st.targets[t])})[(Channel, key) := t],
        targets := st.targets[t := st.targets[t].(key := key)])
  }

  function Named(st: Store, name: string, value: string, t: Id): Store {
    st.(aliases := st.aliases[Alias(Channel, name, value) := t])
  }

  /** The channel id and the handle, which is already case-folded, name the target from now on. */
  function WithChannelAliases(st: Store, t: Id, channelId: string, handle: Option<string>): Store {
    var named := Named(st, "channel_id", channelId, t);
    if handle.Some? && handle.value != "" then Named(named, "handle", handle.value, t) else named
  }

  function CanonicalKey(channelId: string): string {
    "channel:" + channelId
  }

  /** The target that survives: the one that already has the canonical key, or the source's own. */
  function Survivor(st: Store, source: Id, channelId: string): Option<Id> {
    if source !in st.sources || st.sources[source].target.None? || st.sources[source].target.value !in st.targets then None
    else
      var cur := st.sources[source].target.value;
      if !st.targets[cur].kind.Channel? then None
      else if (Channel, CanonicalKey(channelId)) in st.keys then Some(st.keys[(Channel, CanonicalKey(channelId))])
      else Some(cur)
  }

  ghost function Promote(st: Store, source: Id, channelId: string, handle: Option<string>, now: int): Store {
    match Survivor(st, source, channelId)
    case None => st
    case Some(tgt) =>
      var cur := st.sources[source].target.value;
      if tgt != cur then WithChannelAliases(SyncPin(Merged(st, cur, tgt), tgt, now), tgt, channelId, handle)
      else WithChannelAliases(Renamed(st, cur, CanonicalKey(channelId)), cur, channelId, handle)
  }

  // ---- table by table ----------------------------------------------------------------------

  ghost predicate Mergeable(st: Store, cur: Id, tgt: Id) {
    cur in st.targets && tgt in st.targets && cur != tgt && st.targets[cur].kind == st.targets[tgt].kind
  }

  lemma MergeKeepsNames(st: Store, cur: Id, tgt: Id)
    requires Mergeable(st, cur, tgt) && KeysOk(st.targets, st.keys) && AliasesOk(st.targets, st.aliases)
    ensures KeysOk(st.targets - {cur}, st.keys - {KeyOf(st.targets[cur])})
    ensures AliasesOk(st.targets - {cur}, MovedAliases(st.aliases, cur, tgt))
  {
  }

  lemma MovedBacking(sources: map<Id, Source>, cur: Id, tgt: Id, s: Id, t: Id)
    requires cur != tgt
    ensures Backs(MovedSources(sources, cur, tgt), s, t) <==>
            t != cur && (Backs(sources, s, t) || (t == tgt && Backs(sources, s, cur)))
  {
  }

  lemma MergeKeepsSources(st: Store, cur: Id, tgt: Id)
    requires Mergeable(st, cur, tgt) && SourcesOk(st.targets, st.sources) && Sourced(st.targets, st.sources)
    ensures SourcesOk(st.targets - {cur}, MovedSources(st.sources, cur, tgt))
    ensures Sourced(st.targets - {cur}, MovedSources(st.sources, cur, tgt))
  {
    var after := MovedSources(st.sources, cur, tgt);
    forall s, t | Backs(after, s, t) ensures t in st.targets && t != cur && st.targets[t].kind == after[s].kind {
      MovedBacking(st.sources, cur, tgt, s, t);
    }
    forall t | t in st.targets - {cur} ensures HasSource(after, t) {
      var s :| Backs(st.sources, s, t);
      MovedBacking(st.sources, cur, tgt, s, t);
      assert Backs(after, s, t);
    }
  }

  lemma MergeKeepsJobs(st: Store, cur: Id, tgt: Id)
    requires cur != tgt && JobsOk(st.sources, st.jobs)
    ensures JobsOk(MovedSources(st.sources, cur, tgt), MovedJobs(st.jobs, cur, tgt))
  {
  }

  lemma MovedActive(jobs: JobMap, cur: Id, tgt: Id, j: Id, t: Id)
    requires cur != tgt
    ensures IsActive(MovedJobs(jobs, cur, tgt), j, t) <==>
            t != cur && (IsActive(jobs, j, t) || (t == tgt && IsActive(jobs, j, cur) && !HasActive(jobs, tgt)))
  {
  }

  /** The surviving target has one unfinished job if either had one. */
  lemma MergeKeepsActive(jobs: JobMap, cur: Id, tgt: Id)
    requires cur != tgt && OneActive(jobs)
    ensures OneActive(MovedJobs(jobs, cur, tgt))
    ensures forall t :: t != cur && (HasActive(jobs, t) || (t == tgt && HasActive(jobs, cur))) ==>
            HasActive(MovedJobs(jobs, cur, tgt), t)
  {
    var after := MovedJobs(jobs, cur, tgt);
    forall a, b, t | IsActive(after, a, t) && IsActive(after, b, t) ensures a == b {
      MovedActive(jobs, cur, tgt, a, t);
      MovedActive(jobs, cur, tgt, b, t);
      if !IsActive(jobs, a, t) && IsActive(jobs, b, t) {
        assert HasActive(jobs, tgt);
      }
    }
    forall t | t != cur && (HasActive(jobs, t) || (t == tgt && HasActive(jobs, cur))) ensures HasActive(after, t) {
      var u := if HasActive(jobs, t) then t else cur;
      var j :| IsActive(jobs, j, u);
      MovedActive(jobs, cur, tgt, j, t);
      assert IsActive(after, j, t);
    }
  }

  lemma MergeKeepsStranded(st: Store, cur: Id, tgt: Id)
    requires cur != tgt && OneActive(st.jobs) && NoneStranded(st.requests, st.jobs)
    ensures NoneStranded(MovedRequests(st.subscriptions, st.subscriptionIds, st.requests, cur, tgt),
            MovedJobs(st.jobs, cur, tgt))
  {
    MergeKeepsActive(st.jobs, cur, tgt);
    var after := MovedRequests(st.subscriptions, st.subscriptionIds, st.requests, cur, tgt);
    forall r | r in after && Pending(after[r]) ensures HasActive(MovedJobs(st.jobs, cur, tgt), after[r].target) {
      assert Pending(st.requests[r]) && HasActive(st.jobs, st.requests[r].target);
    }
  }

  lemma MergeKeepsActions(st: Store, cur: Id, tgt: Id)
    requires cur != tgt && ActionsOnce(st.requests)
    ensures ActionsOnce(MovedRequests(st.subscriptions, st.subscriptionIds, st.requests, cur, tgt))
  {
    var after := MovedRequests(st.subscriptions, st.subscriptionIds, st.requests, cur, tgt);
    forall a, b | a in after && b in after && SameAction(after[a], after[b]) ensures a == b {
      var x, y := st.requests[a], st.requests[b];
      if x.target == y.target {
        assert SameAction(x, y);
      } else {
        assert false;
      }
    }
  }

  lemma MergeKeepsVideos(st: Store, cur: Id, tgt: Id)
    requires Mergeable(st, cur, tgt) && VideosOk(st.targets, st.targetVideos, st.firstSeen) && PinsOk(st.targets, st.pins)
    ensures VideosOk(st.targets - {cur}, MergedVideos(st.targetVideos, cur, tgt),
            MergedSeen(st.targetVideos, st.firstSeen, cur, tgt))
    ensures PinsOk(st.targets - {cur}, MergedPins(st.pins, cur, tgt))
  {
    var videos, seen := MergedVideos(st.targetVideos, cur, tgt), MergedSeen(st.targetVideos, st.firstSeen, cur, tgt);
    forall t, v ensures v in Members(videos, t) <==> (t, v) in seen {
      assert v in Members(st.targetVideos, t) <==> (t, v) in st.firstSeen;
      assert v in Members(st.targetVideos, cur) <==> (cur, v) in st.firstSeen;
    }
  }

  // ---- subscriptions -------------------------------------------------------------------------

  lemma MergedIdsAt(ids: map<(Id, Id), Id>, cur: Id, tgt: Id, user: Id, t: Id)
    requires cur != tgt
    ensures var after := MergedIds(ids, cur, tgt);
            && ((user, t) in after <==> t != cur && ((user, t) in ids || (t == tgt && (user, cur) in ids)))
            && ((user, t) in after ==> after[(user, t)] == if (user, t) in ids then ids[(user, t)] else ids[(user, cur)])
  {
    var moved := set q | q in ids && q.1 == cur :: (q.0, tgt);
    if (user, cur) in ids && t == tgt {
      assert (user, tgt) in moved;
    }
    if (user, t) in moved {
      var q :| q in ids && q.1 == cur && (q.0, tgt) == (user, t);
      assert q == (user, cur);
    }
  }

  lemma MergeKeepsSubscriptions(targets: map<Id, Target>, subs: map<Id, Subscription>, ids: map<(Id, Id), Id>, cur: Id, tgt: Id)
    requires SubscriptionsOk(targets, subs, ids) && cur != tgt && tgt in targets
    ensures SubscriptionsOk(targets - {cur}, MergedSubscriptions(subs, ids, cur, tgt), MergedIds(ids, cur, tgt))
  {
    var after, index := MergedSubscriptions(subs, ids, cur, tgt), MergedIds(ids, cur, tgt);
    forall s | s in after
      ensures after[s].target in targets - {cur} && PairOf(after[s]) in index && index[PairOf(after[s])] == s
    {
      MergedIdsAt(ids, cur, tgt, after[s].user, after[s].target);
    }
    forall p | p in index ensures index[p] in after && PairOf(after[index[p]]) == p {
      MergedIdsAt(ids, cur, tgt, p.0, p.1);
    }
  }

  /** Every subscriber of either target is subscribed to the survivor, enabled if either was. */
  lemma SubscribersKept(targets: map<Id, Target>, subs: map<Id, Subscription>, ids: map<(Id, Id), Id>, cur: Id,
                        tgt: Id, user: Id)
    requires SubscriptionsOk(targets, subs, ids) && cur != tgt
    requires (user, cur) in ids || (user, tgt) in ids
    ensures var after, index := MergedSubscriptions(subs, ids, cur, tgt), MergedIds(ids, cur, tgt);
            && (user, tgt) in index && index[(user, tgt)] in after
            && (after[index[(user, tgt)]].enabled <==>
                  || ((user, cur) in ids && subs[ids[(user, cur)]].enabled)
                  || ((user, tgt) in ids && subs[ids[(user, tgt)]].enabled))
  {
    MergedIdsAt(ids, cur, tgt, user, tgt);
  }

  lemma MovedRequestOk(st: Store, cur: Id, tgt: Id, r: Id)
    requires Mergeable(st, cur, tgt) && r in st.requests
    requires SubscriptionsOk(st.targets, st.subscriptions, st.subscriptionIds)
    requires RequestOk(st.targets, st.sources, st.subscriptions, st.jobs, st.requests[r])
    ensures RequestOk(st.targets - {cur}, MovedSources(st.sources, cur, tgt),
                      MergedSubscriptions(st.subscriptions, st.subscriptionIds, cur, tgt), MovedJobs(st.jobs, cur, tgt),
                      MovedRequest(st.subscriptions, st.subscriptionIds, st.requests, st.requests[r], cur, tgt))
  {
    var request := st.requests[r];
    MovedBacking(st.sources, cur, tgt, request.source, if request.target == cur then tgt else request.target);
    if request.job.Some? {
      MovedBacking(st.sources, cur, tgt, st.jobs[request.job.value].source,
                    if request.target == cur then tgt else request.target);
    }
  }

  lemma MergeKeepsRequests(st: Store, cur: Id, tgt: Id)
    requires Mergeable(st, cur, tgt)
    requires SubscriptionsOk(st.targets, st.subscriptions, st.subscriptionIds)
    requires RequestsOk(st.targets, st.sources, st.subscriptions, st.jobs, st.requests)
    ensures RequestsOk(st.targets - {cur}, MovedSources(st.sources, cur, tgt),
                       MergedSubscriptions(st.subscriptions, st.subscriptionIds, cur, tgt), MovedJobs(st.jobs, cur, tgt),
                       MovedRequests(st.subscriptions, st.subscriptionIds, st.requests, cur, tgt))
  {
    forall r | r in st.requests
      ensures RequestOk(st.targets - {cur}, MovedSources(st.sources, cur, tgt),
                        MergedSubscriptions(st.subscriptions, st.subscriptionIds, cur, tgt), MovedJobs(st.jobs, cur, tgt),
                        MovedRequest(st.subscriptions, st.subscriptionIds, st.requests, st.requests[r], cur, tgt))
    {
      MovedRequestOk(st, cur, tgt, r);
    }
  }

  lemma MergeKeeps(st: Store, cur: Id, tgt: Id)
    requires Inv(st) && Mergeable(st, cur, tgt)
    ensures Inv(Merged(st, cur, tgt))
  {
    MergeKeepsNames(st, cur, tgt);
    MergeKeepsSources(st, cur, tgt);
    MergeKeepsJobs(st, cur, tgt);
    MergeKeepsActive(st.jobs, cur, tgt);
    MergeKeepsStranded(st, cur, tgt);
    MergeKeepsActions(st, cur, tgt);
    MergeKeepsVideos(st, cur, tgt);
    MergeKeepsSubscriptions(st.targets, st.subscriptions, st.subscriptionIds, cur, tgt);
    MergeKeepsRequests(st, cur, tgt);
  }

  // ---- the whole promotion -----------------------------------------------------------------------

  lemma RenameKeepsNames(st: Store, t: Id, key: string)
    requires KeysOk(st.targets, st.keys) && AliasesOk(st.targets, st.aliases) && t in st.targets
    requires st.targets[t].kind.Channel? && ((Channel, key) in st.keys ==> st.keys[(Channel, key)] == t)
    ensures KeysOk(Renamed(st, t, key).targets, Renamed(st, t, key).keys)
    ensures AliasesOk(Renamed(st, t, key).targets, st.aliases)
  {
  }

  /** Only the name changes: kinds stay. */
  lemma SameKindsKeep(st: Store, targets: map<Id, Target>)
    requires st.targets.Keys == targets.Keys && forall t :: t in targets ==> targets[t].kind == st.targets[t].kind
    requires SourcesOk(st.targets, st.sources) && SubscriptionsOk(st.targets, st.subscriptions, st.subscriptionIds)
    requires PinsOk(st.targets, st.pins) && VideosOk(st.targets, st.targetVideos, st.firstSeen)
    requires RequestsOk(st.targets, st.sources, st.subscriptions, st.jobs, st.requests)
    ensures SourcesOk(targets, st.sources) && SubscriptionsOk(targets, st.subscriptions, st.subscriptionIds)
    ensures PinsOk(targets, st.pins) && VideosOk(targets, st.targetVideos, st.firstSeen)
    ensures RequestsOk(targets, st.sources, st.subscriptions, st.jobs, st.requests)
  {
    forall r | r in st.requests ensures RequestOk(targets, st.sources, st.subscriptions, st.jobs, st.requests[r]) {
      assert RequestOk(st.targets, st.sources, st.subscriptions, st.jobs, st.requests[r]);
    }
  }

  lemma RenameKeeps(st: Store, t: Id, key: string)
    requires Inv(st) && t in st.targets
    requires st.targets[t].kind.Channel? && ((Channel, key) in st.keys ==> st.keys[(Channel, key)] == t)
    ensures Inv(Renamed(st, t, key))
  {
    RenameKeepsNames(st, t, key);
    SameKindsKeep(st, Renamed(st, t, key).targets);
  }

  lemma NameKeeps(st: Store, name: string, value: string, t: Id)
    requires Inv(st) && t in st.targets && st.targets[t].kind.Channel?
    ensures Inv(Named(st, name, value, t))
  {
  }

  lemma AliasesKeep(st: Store, t: Id, channelId: string, handle: Option<string>)
    requires Inv(st) && t in st.targets && st.targets[t].kind.Channel?
    ensures Inv(WithChannelAliases(st, t, channelId, handle))
  {
    NameKeeps(st, "channel_id", channelId, t);
    if handle.Some? && handle.value != "" {
      NameKeeps(Named(st, "channel_id", channelId, t), "handle", handle.value, t);
    }
  }

  lemma SurvivorFits(st: Store, source: Id, channelId: string)
    requires KeysOk(st.targets, st.keys) && Survivor(st, source, channelId).Some?
    ensures var cur, tgt := st.sources[source].target.value, Survivor(st, source, channelId).value;
            && cur in st.targets && st.targets[cur].kind.Channel? && tgt in st.targets && st.targets[tgt].kind.Channel?
            && (tgt != cur ==> Mergeable(st, cur, tgt))
            && ((Channel, CanonicalKey(channelId)) in st.keys ==> st.keys[(Channel, CanonicalKey(channelId))] == tgt)
  {
  }

  /** A promotion happens exactly to a channel target that the source belongs to, and it ends at the target
      that has the canonical key, if one has it, and at the same target otherwise. */
  lemma SurvivorIs(st: Store, source: Id, channelId: string)
    ensures Survivor(st, source, channelId).Some? <==>
            && source in st.sources && st.sources[source].target.Some? && st.sources[source].target.value in st.targets
            && st.targets[st.sources[source].target.value].kind == Channel
    ensures Survivor(st, source, channelId).Some? ==>
              Survivor(st, source, channelId).value
              == (if (Channel, "channel:" + channelId) in st.keys then st.keys[(Channel, "channel:" + channelId)]
                  else st.sources[source].target.value)
  {
  }

  lemma SyncedMergeKeeps(st: Store, cur: Id, tgt: Id, now: int)
    requires Inv(st) && Mergeable(st, cur, tgt)
    ensures Inv(SyncPin(Merged(st, cur, tgt), tgt, now))
  {
    MergeKeeps(st, cur, tgt);
    SyncPinKeeps(Merged(st, cur, tgt), tgt, now);
  }

  /** Promotion keeps the store well formed, whether it renames a target or merges two. */
  lemma PromoteKeeps(st: Store, source: Id, channelId: string, handle: Option<string>, now: int)
    requires Inv(st)
    ensures Inv(Promote(st, source, channelId, handle, now))
  {
    if Survivor(st, source, channelId).Some? {
      var tgt, cur := Survivor(st, source, channelId).value, st.sources[source].target.value;
      SurvivorFits(st, source, channelId);
      if tgt != cur {
        SyncedMergeKeeps(st, cur, tgt, now);
        AliasesKeep(SyncPin(Merged(st, cur, tgt), tgt, now), tgt, channelId, handle);
      } else {
        RenameKeeps(st, cur, CanonicalKey(channelId));
        AliasesKeep(Renamed(st, cur, CanonicalKey(channelId)), tgt, channelId, handle);
      }
    }
  }

  // ---- what a merge means --------------------------------------------------------------------------

  /** Nothing in the store names the target. */
  ghost predicate Nowhere(st: Store, t: Id) {
    && t !in st.targets
    && (forall k :: k in st.keys ==> st.keys[k] != t)
    && (forall a :: a in st.aliases ==> st.aliases[a] != t)
    && (forall s :: !Backs(st.sources, s, t))
    && (forall s :: s in st.subscriptions ==> st.subscriptions[s].target != t)
    && (forall p :: p in st.subscriptionIds ==> p.1 != t)
    && (forall r :: r in st.requests ==> st.requests[r].target != t)
    && (forall j :: j in st.jobs ==> st.jobs[j].target != Some(t))
    && t !in st.targetVideos && (forall p :: p in st.firstSeen ==> p.0 != t)
    && t !in st.pins
  }

  /** A well-formed store never names a target it does not have. */
  lemma UnknownIsNowhere(st: Store, t: Id)
    requires Core(st) && t !in st.targets
    ensures Nowhere(st, t)
  {
    forall p | p in st.firstSeen ensures p.0 != t {
      assert p.1 in Members(st.targetVideos, p.0);
    }
    forall j | j in st.jobs ensures st.jobs[j].target != Some(t) {
      assert st.jobs[j].target.Some? ==> Backs(st.sources, st.jobs[j].source, st.jobs[j].target.value);
    }
  }

  /** After a merge the retired target is named nowhere. */
  lemma RetiredIsGone(st: Store, cur: Id, tgt: Id)
    requires Inv(st) && Mergeable(st, cur, tgt)
    ensures Nowhere(Merged(st, cur, tgt), cur)
  {
    MergeKeeps(st, cur, tgt);
    UnknownIsNowhere(Merged(st, cur, tgt), cur);
  }

  /** Memberships are united, each with the earlier of its first-seen times. */
  lemma MembershipIsUnited(st: Store, cur: Id, tgt: Id, v: Id)
    requires Mergeable(st, cur, tgt) && VideosOk(st.targets, st.targetVideos, st.firstSeen)
    ensures var after := Merged(st, cur, tgt);
            && (v in Members(after.targetVideos, tgt) <==>
                  v in Members(st.targetVideos, tgt) || v in Members(st.targetVideos, cur))
            && (v in Members(after.targetVideos, tgt) ==>
                  && (tgt, v) in after.firstSeen
                  && (v in Members(st.targetVideos, tgt) ==> after.firstSeen[(tgt, v)] <= st.firstSeen[(tgt, v)])
                  && (v in Members(st.targetVideos, cur) ==> after.firstSeen[(tgt, v)] <= st.firstSeen[(cur, v)])
                  && (|| (v in Members(st.targetVideos, tgt) && after.firstSeen[(tgt, v)] == st.firstSeen[(tgt, v)])
                      || (v in Members(st.targetVideos, cur) && after.firstSeen[(tgt, v)] == st.firstSeen[(cur, v)])))
  {
    assert v in Members(st.targetVideos, tgt) <==> (tgt, v) in st.firstSeen;
    assert v in Members(st.targetVideos, cur) <==> (cur, v) in st.firstSeen;
  }

  /** No request, source or job is lost, and every other target's records are untouched. A request that
      moves keeps all but its subscription and key, which `NewSubscription` and `MovedKeepsKey` tell; a
      source moves; a job moves too, unless it is unfinished and the survivor has an unfinished one. */
  lemma MergeLosesNothing(st: Store, cur: Id, tgt: Id)
    requires Mergeable(st, cur, tgt)
    ensures var after := Merged(st, cur, tgt);
            && after.requests.Keys == st.requests.Keys && after.sources.Keys == st.sources.Keys
            && after.jobs.Keys == st.jobs.Keys
            && (forall r :: r in st.requests && st.requests[r].target != cur ==> after.requests[r] == st.requests[r])
            && (forall j :: j in st.jobs && st.jobs[j].target != Some(cur) ==> after.jobs[j] == st.jobs[j])
            && (forall r :: r in st.requests && st.requests[r].target == cur ==>
                  MovedTo(st.requests[r], after.requests[r], tgt))
  {
    var subs, ids := st.subscriptions, st.subscriptionIds;
    forall r | r in st.requests
      ensures st.requests[r].target != cur ==> MovedRequests(subs, ids, st.requests, cur, tgt)[r] == st.requests[r]
      ensures st.requests[r].target == cur ==>
                MovedTo(st.requests[r], MovedRequests(subs, ids, st.requests, cur, tgt)[r], tgt)
    {
      MovedRequestKeeps(subs, ids, st.requests, st.requests[r], cur, tgt);
    }
  }

  predicate MovedTo(before: Request, after: Request, tgt: Id) {
    && after.target == tgt && after.source == before.source && after.config == before.config
    && after.job == before.job && after.status == before.status && after.user == before.user
  }

  /** Sources move with all they have; jobs too, except that an unfinished one lets go of its target when the
      survivor has its own. Targets other than the retired one, and their pins, stay; the survivor takes over
      the pin of the retired target unless it has one. */
  lemma MergeMovesWork(st: Store, cur: Id, tgt: Id)
    requires Mergeable(st, cur, tgt)
    ensures var after := Merged(st, cur, tgt);
            && (forall s :: s in st.sources && st.sources[s].target != Some(cur) ==> after.sources[s] == st.sources[s])
            && (forall s :: s in st.sources && st.sources[s].target == Some(cur) ==>
                  after.sources[s] == st.sources[s].(target := Some(tgt)))
            && (forall j :: j in st.jobs && st.jobs[j].target == Some(cur) ==>
                  var stays := IsTerminal(st.jobs[j].state) || !HasActive(st.jobs, tgt);
                  after.jobs[j] == st.jobs[j].(target := if stays then Some(tgt) else None))
  {
  }

  lemma MergeKeepsOtherTargets(st: Store, cur: Id, tgt: Id, u: Id)
    requires Mergeable(st, cur, tgt) && KeysOk(st.targets, st.keys) && u in st.targets && u != cur
    ensures var after := Merged(st, cur, tgt);
            && u in after.targets && after.targets[u] == st.targets[u]
            && KeyOf(st.targets[u]) in after.keys && after.keys[KeyOf(st.targets[u])] == u
            && (u in st.pins ==> u in after.pins && after.pins[u] == st.pins[u])
            && (u !in st.pins ==> (u in after.pins <==> u == tgt && cur in st.pins))
            && (u !in st.pins && u in after.pins ==> after.pins[u] == st.pins[cur])
            && (u != tgt ==> Members(after.targetVideos, u) == Members(st.targetVideos, u))
            && forall v :: u != tgt && (u, v) in st.firstSeen ==>
                 (u, v) in after.firstSeen && after.firstSeen[(u, v)] == st.firstSeen[(u, v)]
  {
  }

  /** Subscriptions to other targets stay as they are, and a moved request goes on with the subscription its
      own user has to the survivor. */
  lemma MergeKeepsOtherSubscriptions(st: Store, cur: Id, tgt: Id, s: Id, r: Id)
    requires Mergeable(st, cur, tgt) && SubscriptionsOk(st.targets, st.subscriptions, st.subscriptionIds)
    requires RequestsOk(st.targets, st.sources, st.subscriptions, st.jobs, st.requests)
    ensures s in st.subscriptions && st.subscriptions[s].target !in {cur, tgt} ==>
              s in Merged(st, cur, tgt).subscriptions && Merged(st, cur, tgt).subscriptions[s] == st.subscriptions[s]
    ensures r in st.requests && st.requests[r].target == cur && st.requests[r].subscription.Some? ==>
              var after := Merged(st, cur, tgt);
              && after.requests[r].subscription.Some? && st.requests[r].user.Some?
              && (st.requests[r].user.value, tgt) in after.subscriptionIds
              && after.requests[r].subscription.value == after.subscriptionIds[(st.requests[r].user.value, tgt)]
    ensures r in st.requests && st.requests[r].subscription.None? ==> Merged(st, cur, tgt).requests[r].subscription.None?
  {
    if r in st.requests && st.requests[r].subscription.Some? {
      assert RequestOk(st.targets, st.sources, st.subscriptions, st.jobs, st.requests[r]);
      MergedIdsAt(st.subscriptionIds, cur, tgt, st.requests[r].user.value, tgt);
    }
  }

  /** A request of this user under this key, on this target. */
  predicate RequestUnder(requests: map<Id, Request>, r: Id, t: Id, user: Option<Id>, key: string) {
    r in requests && requests[r].target == t && requests[r].user == user && requests[r].key == Some(key)
  }

  ghost predicate UsedKey(requests: map<Id, Request>, t: Id, user: Option<Id>, key: string) {
    exists r :: RequestUnder(requests, r, t, user, key)
  }

  /** A request that moves keeps its replay key, unless the surviving target already has a request of
      the same user under it. */
  lemma MovedKeepsKey(st: Store, cur: Id, tgt: Id, r: Id, key: string)
    requires Mergeable(st, cur, tgt) && r in st.requests && st.requests[r].target == cur
    requires st.requests[r].key == Some(key) && key != ""
    ensures Merged(st, cur, tgt).requests[r].key ==
            if UsedKey(st.requests, tgt, st.requests[r].user, key) then None else Some(key)
  {
    if UsedKey(st.requests, tgt, st.requests[r].user, key) {
      var o :| RequestUnder(st.requests, o, tgt, st.requests[r].user, key);
      assert KeyTaken(st.requests, tgt, st.requests[r]);
    } else {
      if KeyTaken(st.requests, tgt, st.requests[r]) {
        var o :| o in st.requests && st.requests[o].target == tgt && st.requests[o].user == st.requests[r].user
          && st.requests[o].key == st.requests[r].key;
        assert RequestUnder(st.requests, o, tgt, st.requests[r].user, key);
      }
    }
  }

  /** A request without a key, or with an empty one, has nothing to lose. */
  lemma MovedWithoutKey(st: Store, cur: Id, tgt: Id, r: Id)
    requires Mergeable(st, cur, tgt) && r in st.requests && st.requests[r].key in {None, Some("")}
    ensures Merged(st, cur, tgt).requests[r].key in {None, st.requests[r].key}
    ensures st.requests[r].key == Some("") ==> Merged(st, cur, tgt).requests[r].key == Some("")
  {
  }

  /** No two requests of a target share a user and a key. */
  ghost predicate KeysOnce(requests: map<Id, Request>, t: Id, user: Option<Id>, key: string) {
    forall a, b :: RequestUnder(requests, a, t, user, key) && RequestUnder(requests, b, t, user, key) ==> a == b
  }

  lemma ActionsOnceMeans(requests: map<Id, Request>, t: Id, user: Option<Id>, key: string)
    requires ActionsOnce(requests) && key != ""
    ensures KeysOnce(requests, t, user, key)
  {
    forall a, b | RequestUnder(requests, a, t, user, key) && RequestUnder(requests, b, t, user, key) ensures a == b {
      assert SameAction(requests[a], requests[b]);
    }
  }

  lemma MergeKeepsUsed(st: Store, cur: Id, tgt: Id, user: Option<Id>, key: string)
    requires Mergeable(st, cur, tgt) && key != ""
    requires UsedKey(st.requests, cur, user, key) || UsedKey(st.requests, tgt, user, key)
    ensures UsedKey(Merged(st, cur, tgt).requests, tgt, user, key)
  {
    var after := MovedRequests(st.subscriptions, st.subscriptionIds, st.requests, cur, tgt);
    var from := if UsedKey(st.requests, tgt, user, key) then tgt else cur;
    var r :| RequestUnder(st.requests, r, from, user, key);
    if from == cur {
      MovedKeepsKey(st, cur, tgt, r, key);
    }
    assert RequestUnder(after, r, tgt, user, key);
  }

  /** Every key under which either target had a request names exactly one request of the survivor. */
  lemma MergeKeepsKeys(st: Store, cur: Id, tgt: Id, user: Option<Id>, key: string)
    requires ActionsOnce(st.requests) && Mergeable(st, cur, tgt) && key != ""
    requires UsedKey(st.requests, cur, user, key) || UsedKey(st.requests, tgt, user, key)
    ensures UsedKey(Merged(st, cur, tgt).requests, tgt, user, key)
    ensures KeysOnce(Merged(st, cur, tgt).requests, tgt, user, key)
  {
    MergeKeepsUsed(st, cur, tgt, user, key);
    MergeKeepsActions(st, cur, tgt);
    ActionsOnceMeans(Merged(st, cur, tgt).requests, tgt, user, key);
  }

  lemma MovedRequestKeeps(subs: map<Id, Subscription>, ids: map<(Id, Id), Id>, requests: map<Id, Request>, r: Request,
                          cur: Id, tgt: Id)
    ensures r.target != cur ==> MovedRequest(subs, ids, requests, r, cur, tgt) == r
    ensures r.target == cur ==> MovedTo(r, MovedRequest(subs, ids, requests, r, cur, tgt), tgt)
  {
  }
}
