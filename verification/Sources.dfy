/** Subscriptions, worker sources and pins:
    apps/api/monitube_api/infrastructure/memory_repository.py */
module Sources {
  import opened Common
  import opened CollectionPolicy
  import opened Jobs
  import opened Store

  const PIN_INTERVAL: nat := 360

  // ---- pins follow enabled subscriptions ---------------------------------------------

  predicate Enables(subs: map<Id, Subscription>, s: Id, t: Id) {
    s in subs && subs[s].target == t && subs[s].enabled
  }

  ghost predicate HasEnabled(subs: map<Id, Subscription>, t: Id) {
    exists s :: Enables(subs, s, t)
  }

  function SyncedPins(st: Store, t: Id, hasEnabled: bool, now: int): map<Id, Pin> {
    if t !in st.targets then st.pins
    else if !hasEnabled then (if t in st.pins then st.pins[t := st.pins[t].(enabled := false)] else st.pins)
    else if t in st.pins then st.pins[t := st.pins[t].(enabled := true, nextRun := now)]
    else if st.targets[t].kind.DirectVideo? then st.pins
    else st.pins[t := Pin(true, PIN_INTERVAL, now, None)]
  }

  ghost function SyncPin(st: Store, t: Id, now: int): Store {
    st.(pins := SyncedPins(st, t, HasEnabled(st.subscriptions, t), now))
  }

  /** Afterwards a pin is on exactly while somebody has the target enabled, except that a direct video
      is never given one; other pins, and all other tables, are as they were. */
  lemma SyncPinMeans(st: Store, t: Id, now: int)
    requires t in st.targets
    ensures var after := SyncPin(st, t, now);
            && ((t in after.pins && after.pins[t].enabled) <==>
                && (exists s :: s in st.subscriptions && st.subscriptions[s].target == t && st.subscriptions[s].enabled)
                && (t in st.pins || st.targets[t].kind != DirectVideo))
            && (t in after.pins && after.pins[t].enabled ==> after.pins[t].nextRun == now)
            && (t in st.pins ==>
                  && t in after.pins
                  && after.pins[t] == st.pins[t].(enabled := after.pins[t].enabled, nextRun := after.pins[t].nextRun))
            && (t in st.pins && !after.pins[t].enabled ==> after.pins[t].nextRun == st.pins[t].nextRun)
            && (t in after.pins && t !in st.pins ==> after.pins[t] == Pin(true, 6 * 60, now, None))
            && after == st.(pins := after.pins)
            && forall other :: other != t ==>
                 (other in after.pins <==> other in st.pins) && (other in st.pins ==> after.pins[other] == st.pins[other])
  {
    if s :| s in st.subscriptions && st.subscriptions[s].target == t && st.subscriptions[s].enabled {
      assert Enables(st.subscriptions, s, t);
    }
  }

  lemma SyncPinKeeps(st: Store, t: Id, now: int)
    requires Core(st)
    ensures Core(SyncPin(st, t, now))
  {
  }

  // ---- subscriptions -----------------------------------------------------------------

  function EnsuredId(st: Store, user: Id, t: Id, newId: Id): Id {
    if (user, t) in st.subscriptionIds then st.subscriptionIds[(user, t)] else newId
  }

  function AddSubscription(st: Store, user: Id, t: Id, id: Id): Store {
    st.(subscriptions := st.subscriptions[id := Subscription(user, t, true)],
        subscriptionIds := st.subscriptionIds[(user, t) := id])
  }

  ghost function EnsureSubscription(st: Store, user: Id, t: Id, newId: Id, now: int): Store {
    SyncPin(AddSubscription(st, user, t, EnsuredId(st, user, t, newId)), t, now)
  }

  lemma EnsureSubscriptionKeeps(st: Store, user: Id, t: Id, newId: Id, now: int)
    requires Core(st) && t in st.targets && newId !in st.subscriptions
    ensures Core(EnsureSubscription(st, user, t, newId, now))
  {
    var id := EnsuredId(st, user, t, newId);
    AddSubscriptionKeeps(st, user, t, id);
    SyncPinKeeps(AddSubscription(st, user, t, id), t, now);
  }

  lemma AddSubscriptionKeeps(st: Store, user: Id, t: Id, id: Id)
    requires Core(st) && t in st.targets
    requires if (user, t) in st.subscriptionIds then id == st.subscriptionIds[(user, t)] else id !in st.subscriptions
    ensures Core(AddSubscription(st, user, t, id))
  {
    AddedSubscription(st.targets, st.subscriptions, st.subscriptionIds, user, t, id);
    SubscriptionsKeepRequests(st, st.subscriptions[id := Subscription(user, t, true)]);
  }

  /** Afterwards the user has an enabled subscription to the target, the old one or a new one, which the
      index finds; every other subscription is as it was. */
  lemma EnsuredIsEnabled(st: Store, user: Id, t: Id, newId: Id, now: int)
    ensures var after, id := EnsureSubscription(st, user, t, newId, now), EnsuredId(st, user, t, newId);
            && id in after.subscriptions && after.subscriptions[id] == Subscription(user, t, true)
            && ((user, t) in st.subscriptionIds ==> id == st.subscriptionIds[(user, t)])
            && ((user, t) !in st.subscriptionIds ==> id == newId)
            && (user, t) in after.subscriptionIds && after.subscriptionIds[(user, t)] == id
            && (forall s :: s in st.subscriptions && s != id ==>
                  s in after.subscriptions && after.subscriptions[s] == st.subscriptions[s])
            && after == SyncPin(st.(subscriptions := after.subscriptions, subscriptionIds := after.subscriptionIds), t, now)
  {
  }

  lemma AddedSubscription(targets: map<Id, Target>, subs: map<Id, Subscription>, ids: map<(Id, Id), Id>, user: Id,
                          t: Id, id: Id)
    requires SubscriptionsOk(targets, subs, ids) && t in targets
    requires if (user, t) in ids then id == ids[(user, t)] else id !in subs
    ensures SubscriptionsOk(targets, subs[id := Subscription(user, t, true)], ids[(user, t) := id])
    ensures SamePairs(subs, subs[id := Subscription(user, t, true)])
  {
  }

  ghost predicate SamePairs(subs: map<Id, Subscription>, after: map<Id, Subscription>) {
    forall s :: s in subs ==> s in after && PairOf(after[s]) == PairOf(subs[s])
  }

  /** Requests rely on their subscription being there for the same user and target. */
  lemma SubscriptionsKeepRequests(st: Store, subs: map<Id, Subscription>)
    requires RequestsOk(st.targets, st.sources, st.subscriptions, st.jobs, st.requests)
    requires SamePairs(st.subscriptions, subs)
    ensures RequestsOk(st.targets, st.sources, subs, st.jobs, st.requests)
  {
    forall r | r in st.requests ensures RequestOk(st.targets, st.sources, subs, st.jobs, st.requests[r]) {
      assert RequestOk(st.targets, st.sources, st.subscriptions, st.jobs, st.requests[r]);
    }
  }

  /** The subscription behind a public source id, if this caller may use it. */
  predicate OwnSubscription(st: Store, id: Id, owner: Option<Id>) {
    id in st.subscriptions && (owner.None? || st.subscriptions[id].user == owner.value)
  }

  /** A stored source this caller may use. */
  predicate OwnSource(st: Store, id: Id, owner: Option<Id>) {
    && id in st.sources
    && (owner.Some? ==> st.sources[id].target.None? && (st.sources[id].owner.None? || st.sources[id].owner == owner))
  }

  ghost function UpdateSource(st: Store, id: Id, owner: Option<Id>, enabled: Option<bool>, config: Option<Config>, now: int)
    : Result<Store, Error>
  {
    if OwnSubscription(st, id, owner) then
      var sub := st.subscriptions[id];
      var updated := st.(subscriptions := st.subscriptions[id := sub.(enabled := enabled.GetOr(sub.enabled))]);
      Success(SyncPin(updated, sub.target, now))
    else if id in st.subscriptions || !OwnSource(st, id, owner) then Failure(NotFound)
    else Success(st.(sources := st.sources[id := st.sources[id].(config := config.GetOr(st.sources[id].config))]))
  }

  lemma UpdateSourceKeeps(st: Store, id: Id, owner: Option<Id>, enabled: Option<bool>, config: Option<Config>, now: int)
    requires Inv(st) && UpdateSource(st, id, owner, enabled, config, now).Success?
    ensures Inv(UpdateSource(st, id, owner, enabled, config, now).value)
  {
    if OwnSubscription(st, id, owner) {
      UpdateSubscriptionKeeps(st, id, enabled.GetOr(st.subscriptions[id].enabled), now);
    } else {
      var sources := st.sources[id := st.sources[id].(config := config.GetOr(st.sources[id].config))];
      SourcesReconfigured(st, sources);
    }
  }

  /** An edit through a subscription switches that one on or off as asked, and its target's pin follows; an
      edit of a stored source replaces its config as asked. What is not given stays, and so does every
      other record. */
  lemma UpdateSourceMeans(st: Store, id: Id, owner: Option<Id>, enabled: Option<bool>, config: Option<Config>, now: int,
                          other: Id)
    requires UpdateSource(st, id, owner, enabled, config, now).Success?
    ensures var after := UpdateSource(st, id, owner, enabled, config, now).value;
            if id in st.subscriptions then
              && (owner.Some? ==> st.subscriptions[id].user == owner.value)
              && id in after.subscriptions && after.subscriptions.Keys == st.subscriptions.Keys
              && after.subscriptions[id].user == st.subscriptions[id].user
              && after.subscriptions[id].target == st.subscriptions[id].target
              && (enabled.Some? ==> after.subscriptions[id].enabled == enabled.value)
              && (enabled.None? ==> after.subscriptions[id].enabled == st.subscriptions[id].enabled)
              && (other in st.subscriptions && other != id ==> after.subscriptions[other] == st.subscriptions[other])
              && after == SyncPin(st.(subscriptions := after.subscriptions), st.subscriptions[id].target, now)
            else
              && id in st.sources && after == st.(sources := after.sources) && after.sources.Keys == st.sources.Keys
              && (config.Some? ==> after.sources[id] == st.sources[id].(config := config.value))
              && (config.None? ==> after.sources[id] == st.sources[id])
              && (other in st.sources && other != id ==> after.sources[other] == st.sources[other])
  {
  }

  lemma UpdateSubscriptionKeeps(st: Store, id: Id, enabled: bool, now: int)
    requires Inv(st) && id in st.subscriptions
    ensures Inv(SyncPin(st.(subscriptions := st.subscriptions[id := st.subscriptions[id].(enabled := enabled)]),
                        st.subscriptions[id].target, now))
  {
    var subs := st.subscriptions[id := st.subscriptions[id].(enabled := enabled)];
    SubscriptionsKeepRequests(st, subs);
    assert SubscriptionsOk(st.targets, subs, st.subscriptionIds);
    SyncPinKeeps(st.(subscriptions := subs), st.subscriptions[id].target, now);
  }

  /** Only a source's target matters to the other tables. */
  ghost predicate SameBacking(sources: map<Id, Source>, after: map<Id, Source>) {
    && (forall s :: s in sources ==> s in after && after[s].target == sources[s].target && after[s].kind == sources[s].kind)
    && (forall s :: s in after && s !in sources ==> after[s].target.None?)
  }

  lemma SameBackingKeepsSources(targets: map<Id, Target>, before: map<Id, Source>, after: map<Id, Source>, jobs: JobMap)
    requires SourcesOk(targets, before) && JobsOk(before, jobs) && SameBacking(before, after)
    ensures SourcesOk(targets, after) && JobsOk(after, jobs)
    ensures forall t :: HasSource(before, t) ==> HasSource(after, t)
  {
    forall s, t ensures Backs(after, s, t) <==> Backs(before, s, t) {
    }
    forall t | HasSource(before, t) ensures HasSource(after, t) {
      var s :| Backs(before, s, t);
      assert Backs(after, s, t);
    }
  }

  lemma SourcesReconfigured(st: Store, sources: map<Id, Source>)
    requires Core(st) && SameBacking(st.sources, sources)
    ensures Core(st.(sources := sources))
    ensures Sourced(st.targets, st.sources) ==> Sourced(st.targets, sources)
  {
    SameBackingKeepsSources(st.targets, st.sources, sources, st.jobs);
  }

  function CreateSource(st: Store, id: Id, kind: SourceType, config: Config, owner: Option<Id>, now: int): Store {
    st.(sources := st.sources[id := Source(kind, config, None, owner, now)])
  }

  /** A created source is a legacy one: its owner's, and nobody's target. */
  lemma CreatedSourceIsLegacy(st: Store, id: Id, kind: SourceType, config: Config, owner: Option<Id>, now: int, user: Id)
    ensures var after := CreateSource(st, id, kind, config, owner, now);
            && id in after.sources && after.sources[id].kind == kind && after.sources[id].config == config
            && after.sources[id].target.None? && after.sources[id].created == now
            && (OwnSource(after, id, Some(user)) <==> owner.None? || owner == Some(user))
            && after.sources - {id} == st.sources - {id} && after == st.(sources := after.sources)
  {
  }

  // ---- deletion ------------------------------------------------------------------------

  /** Requests made through a subscription that is removed lose it, and their replay key. */
  function Unsubscribed(r: Request, id: Id): Request {
    if r.subscription == Some(id) then r.(subscription := None, key := None) else r
  }

  ghost function DeleteSubscription(st: Store, id: Id, now: int): Store
    requires id in st.subscriptions
  {
    var sub := st.subscriptions[id];
    var removed := st.(
      requests := UnsubscribedAll(st.requests, id),
      subscriptions := st.subscriptions - {id},
      subscriptionIds := st.subscriptionIds - {PairOf(sub)});
    SyncPin(removed, sub.target, now)
  }

  function UnsubscribedAll(requests: map<Id, Request>, id: Id): map<Id, Request> {
    map r | r in requests :: Unsubscribed(requests[r], id)
  }

  lemma UnsubscribedKeepRequests(st: Store, id: Id)
    requires RequestsOk(st.targets, st.sources, st.subscriptions, st.jobs, st.requests)
    ensures RequestsOk(st.targets, st.sources, st.subscriptions - {id}, st.jobs, UnsubscribedAll(st.requests, id))
  {
    forall r | r in st.requests
      ensures RequestOk(st.targets, st.sources, st.subscriptions - {id}, st.jobs, Unsubscribed(st.requests[r], id))
    {
      assert RequestOk(st.targets, st.sources, st.subscriptions, st.jobs, st.requests[r]);
    }
  }

  lemma UnsubscribedKeepActions(requests: map<Id, Request>, jobs: JobMap, id: Id)
    requires ActionsOnce(requests) && NoneStranded(requests, jobs)
    ensures ActionsOnce(UnsubscribedAll(requests, id)) && NoneStranded(UnsubscribedAll(requests, id), jobs)
  {
    var after := UnsubscribedAll(requests, id);
    forall a, b | a in after && b in after && SameAction(after[a], after[b]) ensures a == b {
      assert SameAction(requests[a], requests[b]);
    }
    forall r | r in after && Pending(after[r]) ensures HasActive(jobs, after[r].target) {
      assert Pending(requests[r]);
    }
  }

  lemma RemovedSubscription(targets: map<Id, Target>, subs: map<Id, Subscription>, ids: map<(Id, Id), Id>, id: Id)
    requires SubscriptionsOk(targets, subs, ids) && id in subs
    ensures SubscriptionsOk(targets, subs - {id}, ids - {PairOf(subs[id])})
  {
  }

  lemma DeleteSubscriptionKeeps(st: Store, id: Id, now: int)
    requires Inv(st) && id in st.subscriptions
    ensures Inv(DeleteSubscription(st, id, now))
  {
    UnsubscribedKeepRequests(st, id);
    UnsubscribedKeepActions(st.requests, st.jobs, id);
    RemovedSubscription(st.targets, st.subscriptions, st.subscriptionIds, id);
    var removed := st.(requests := UnsubscribedAll(st.requests, id), subscriptions := st.subscriptions - {id},
                       subscriptionIds := st.subscriptionIds - {PairOf(st.subscriptions[id])});
    SyncPinKeeps(removed, st.subscriptions[id].target, now);
  }

  /** A removed subscription is gone, from its index too; requests made through it stay, without it and not
      to be replayed, and nothing else changes but the pin of its target. */
  lemma DeletedSubscriptionIsGone(st: Store, id: Id, now: int, r: Id, s: Id)
    requires id in st.subscriptions
    ensures var after, old_ := DeleteSubscription(st, id, now), st.subscriptions[id];
            && id !in after.subscriptions && (old_.user, old_.target) !in after.subscriptionIds
            && (s in st.subscriptions && s != id ==> s in after.subscriptions && after.subscriptions[s] == st.subscriptions[s])
            && after.requests.Keys == st.requests.Keys
            && (r in st.requests && st.requests[r].subscription != Some(id) ==> after.requests[r] == st.requests[r])
            && (r in st.requests && st.requests[r].subscription == Some(id) ==>
                  after.requests[r] == st.requests[r].(subscription := None, key := None))
            && after == SyncPin(st.(requests := after.requests, subscriptions := after.subscriptions,
                                    subscriptionIds := after.subscriptionIds), old_.target, now)
  {
  }

  /** A legacy source and its jobs. */
  ghost function RemoveSource(st: Store, id: Id): Store {
    st.(sources := st.sources - {id}, jobs := map j | j in st.jobs && st.jobs[j].source != id :: st.jobs[j])
  }

  lemma RemoveSourceKeepsJobs(st: Store, id: Id)
    requires JobsOk(st.sources, st.jobs) && OneActive(st.jobs) && NoneStranded(st.requests, st.jobs)
    requires id in st.sources && st.sources[id].target.None?
    ensures JobsOk(RemoveSource(st, id).sources, RemoveSource(st, id).jobs)
    ensures OneActive(RemoveSource(st, id).jobs)
    ensures NoneStranded(st.requests, RemoveSource(st, id).jobs)
  {
    var after := RemoveSource(st, id);
    forall j, t ensures IsActive(after.jobs, j, t) <==> IsActive(st.jobs, j, t) {
    }
    forall t | HasActive(st.jobs, t) ensures HasActive(after.jobs, t) {
      var j :| IsActive(st.jobs, j, t);
      assert IsActive(after.jobs, j, t);
    }
  }

  lemma RemoveSourceKeepsBacking(st: Store, id: Id)
    requires SourcesOk(st.targets, st.sources) && Sourced(st.targets, st.sources)
    requires id in st.sources && st.sources[id].target.None?
    ensures SourcesOk(st.targets, RemoveSource(st, id).sources) && Sourced(st.targets, RemoveSource(st, id).sources)
  {
    var after := RemoveSource(st, id);
    forall s, t ensures Backs(after.sources, s, t) <==> Backs(st.sources, s, t) {
    }
    forall t | HasSource(st.sources, t) ensures HasSource(after.sources, t) {
      var s :| Backs(st.sources, s, t);
      assert Backs(after.sources, s, t);
    }
  }

  lemma RemoveSourceKeepsRequests(st: Store, id: Id)
    requires RequestsOk(st.targets, st.sources, st.subscriptions, st.jobs, st.requests)
    requires id in st.sources && st.sources[id].target.None?
    ensures RequestsOk(st.targets, RemoveSource(st, id).sources, st.subscriptions, RemoveSource(st, id).jobs, st.requests)
  {
    var after := RemoveSource(st, id);
    forall r | r in st.requests ensures RequestOk(st.targets, after.sources, st.subscriptions, after.jobs, st.requests[r]) {
      assert RequestOk(st.targets, st.sources, st.subscriptions, st.jobs, st.requests[r]);
    }
  }

  lemma RemoveSourceKeeps(st: Store, id: Id)
    requires Inv(st) && id in st.sources && st.sources[id].target.None?
    ensures Inv(RemoveSource(st, id))
  {
    RemoveSourceKeepsJobs(st, id);
    RemoveSourceKeepsBacking(st, id);
    RemoveSourceKeepsRequests(st, id);
  }

  /** A target with everything that names it, except subscriptions. */
  ghost function RemoveTarget(st: Store, t: Id): Store
    requires t in st.targets
  {
    st.(
      targets := st.targets - {t},
      keys := st.keys - {KeyOf(st.targets[t])},
      aliases := map a | a in st.aliases && st.aliases[a] != t :: st.aliases[a],
      sources := map s | s in st.sources && !Backs(st.sources, s, t) :: st.sources[s],
      requests := map r | r in st.requests && st.requests[r].target != t :: st.requests[r],
      jobs := map j | j in st.jobs && !Backs(st.sources, st.jobs[j].source, t) :: st.jobs[j],
      targetVideos := st.targetVideos - {t},
      firstSeen := map p | p in st.firstSeen && p.0 != t :: st.firstSeen[p],
      pins := st.pins - {t})
  }

  // The same, a few tables at a time.

  function WithoutWorkers(st: Store, t: Id): Store {
    st.(sources := map s | s in st.sources && !Backs(st.sources, s, t) :: st.sources[s],
        jobs := map j | j in st.jobs && !Backs(st.sources, st.jobs[j].source, t) :: st.jobs[j])
  }

  function WithoutRecords(st: Store, t: Id): Store {
    st.(aliases := map a | a in st.aliases && st.aliases[a] != t :: st.aliases[a],
        requests := map r | r in st.requests && st.requests[r].target != t :: st.requests[r],
        firstSeen := map p | p in st.firstSeen && p.0 != t :: st.firstSeen[p])
  }

  function WithoutTarget(st: Store, t: Id): Store
    requires t in st.targets
  {
    st.(targets := st.targets - {t}, keys := st.keys - {KeyOf(st.targets[t])}, targetVideos := st.targetVideos - {t},
        pins := st.pins - {t})
  }

  lemma RemovedInSteps(st: Store, t: Id)
    requires t in st.targets
    ensures RemoveTarget(st, t) == WithoutTarget(WithoutRecords(WithoutWorkers(st, t), t), t)
  {
  }

  ghost predicate Subscribed(subs: map<Id, Subscription>, t: Id) {
    exists s :: s in subs && subs[s].target == t
  }

  lemma RemoveTargetKeepsJobs(st: Store, t: Id)
    requires Core(st) && t in st.targets
    ensures JobsOk(RemoveTarget(st, t).sources, RemoveTarget(st, t).jobs)
    ensures OneActive(RemoveTarget(st, t).jobs)
    ensures NoneStranded(RemoveTarget(st, t).requests, RemoveTarget(st, t).jobs)
  {
    var after := RemoveTarget(st, t);
    forall j, u ensures IsActive(after.jobs, j, u) <==> IsActive(st.jobs, j, u) && u != t {
    }
    forall u | HasActive(st.jobs, u) && u != t ensures HasActive(after.jobs, u) {
      var j :| IsActive(st.jobs, j, u);
      assert IsActive(after.jobs, j, u);
    }
  }

  lemma RemoveTargetKeepsSources(st: Store, t: Id)
    requires Inv(st) && t in st.targets
    ensures SourcesOk(RemoveTarget(st, t).targets, RemoveTarget(st, t).sources)
    ensures Sourced(RemoveTarget(st, t).targets, RemoveTarget(st, t).sources)
  {
    var after := RemoveTarget(st, t);
    forall s, u ensures Backs(after.sources, s, u) <==> Backs(st.sources, s, u) && u != t {
    }
    forall u | u in after.targets ensures HasSource(after.sources, u) {
      var s :| Backs(st.sources, s, u);
      assert Backs(after.sources, s, u);
    }
  }

  lemma RemoveTargetKeepsRequests(st: Store, t: Id)
    requires RequestsOk(st.targets, st.sources, st.subscriptions, st.jobs, st.requests) && t in st.targets
    requires ActionsOnce(st.requests)
    ensures var after := RemoveTarget(st, t);
            && RequestsOk(after.targets, after.sources, after.subscriptions, after.jobs, after.requests)
            && ActionsOnce(after.requests)
  {
    var after := RemoveTarget(st, t);
    forall r | r in after.requests
      ensures RequestOk(after.targets, after.sources, after.subscriptions, after.jobs, after.requests[r])
    {
      assert RequestOk(st.targets, st.sources, st.subscriptions, st.jobs, st.requests[r]);
    }
  }

  lemma RemoveTargetKeepsNames(st: Store, t: Id)
    requires KeysOk(st.targets, st.keys) && AliasesOk(st.targets, st.aliases) && t in st.targets
    ensures var after := RemoveTarget(st, t);
            KeysOk(after.targets, after.keys) && AliasesOk(after.targets, after.aliases)
  {
  }

  lemma RemoveTargetKeepsVideos(st: Store, t: Id)
    requires PinsOk(st.targets, st.pins) && VideosOk(st.targets, st.targetVideos, st.firstSeen) && t in st.targets
    ensures var after := RemoveTarget(st, t);
            PinsOk(after.targets, after.pins) && VideosOk(after.targets, after.targetVideos, after.firstSeen)
  {
  }

  lemma RemoveTargetKeepsSubscriptions(st: Store, t: Id)
    requires SubscriptionsOk(st.targets, st.subscriptions, st.subscriptionIds) && t in st.targets
    ensures SubscriptionsOk(st.targets - {t}, st.subscriptions, st.subscriptionIds) <==> !Subscribed(st.subscriptions, t)
  {
    if Subscribed(st.subscriptions, t) {
      var s :| s in st.subscriptions && st.subscriptions[s].target == t;
      assert st.subscriptions[s].target !in st.targets - {t};
    }
  }

  /** Deleting a target through one of its worker sources keeps the store well formed exactly when
      nobody subscribes to it; the in-memory code leaves that check to its callers. */
  lemma RemoveTargetKeepsIffUnclaimed(st: Store, t: Id)
    requires Inv(st) && t in st.targets
    ensures Inv(RemoveTarget(st, t)) <==> !Subscribed(st.subscriptions, t)
  {
    RemoveTargetKeepsSubscriptions(st, t);
    RemoveTargetKeepsJobs(st, t);
    RemoveTargetKeepsSources(st, t);
    RemoveTargetKeepsRequests(st, t);
    RemoveTargetKeepsNames(st, t);
    RemoveTargetKeepsVideos(st, t);
  }

  /** With a target go the records that name it and the jobs of its sources, whether they still name it or
      not; every other record stays as it was. */
  lemma RemovalIsExact(st: Store, t: Id)
    requires t in st.targets
    ensures var after := RemoveTarget(st, t);
            && (forall u :: u in st.targets && u != t <==> u in after.targets)
            && (forall u :: u in after.targets ==> after.targets[u] == st.targets[u])
            && (forall a :: a in after.aliases <==> a in st.aliases && st.aliases[a] != t)
            && (forall a :: a in after.aliases ==> after.aliases[a] == st.aliases[a])
            && (forall s :: s in after.sources <==> s in st.sources && st.sources[s].target != Some(t))
            && (forall s :: s in after.sources ==> after.sources[s] == st.sources[s])
            && (forall r :: r in after.requests <==> r in st.requests && st.requests[r].target != t)
            && (forall r :: r in after.requests ==> after.requests[r] == st.requests[r])
  {
  }

  lemma RemovalTakesJobs(st: Store, t: Id)
    requires t in st.targets && JobsOk(st.sources, st.jobs)
    ensures var after := RemoveTarget(st, t);
            && (forall j :: j in after.jobs <==> j in st.jobs && st.sources[st.jobs[j].source].target != Some(t))
            && (forall j :: j in after.jobs ==> after.jobs[j] == st.jobs[j])
            && (forall u :: u in after.pins <==> u in st.pins && u != t)
            && (forall u :: u in after.pins ==> after.pins[u] == st.pins[u])
            && (forall u :: u != t ==> Members(after.targetVideos, u) == Members(st.targetVideos, u))
            && (forall p :: p in after.firstSeen <==> p in st.firstSeen && p.0 != t)
            && (forall p :: p in after.firstSeen ==> after.firstSeen[p] == st.firstSeen[p])
            && after.subscriptions == st.subscriptions && after.subscriptionIds == st.subscriptionIds
  {
  }

  /** Deleting a public source id: the caller's subscription, or a legacy source, or a whole target. */
  ghost function DeleteSource(st: Store, id: Id, owner: Option<Id>, now: int): Result<Store, Error> {
    if OwnSubscription(st, id, owner) then Success(DeleteSubscription(st, id, now))
    else if id in st.subscriptions || !OwnSource(st, id, owner) then Failure(NotFound)
    else
      match st.sources[id].target
      case None => Success(RemoveSource(st, id))
      case Some(t) => if t in st.targets then Success(RemoveTarget(st, t)) else Failure(NotFound)
  }

  /** An id the caller may not use is not found. A subscription goes alone, a legacy source with its jobs, and
      a worker source with its whole target. */
  lemma DeleteSourceAnswers(st: Store, id: Id, owner: Option<Id>, now: int)
    requires forall t :: id in st.sources && st.sources[id].target == Some(t) ==> t in st.targets
    ensures var result := DeleteSource(st, id, owner, now);
            && (result.Failure? <==>
                  if id in st.subscriptions then owner.Some? && st.subscriptions[id].user != owner.value
                  else id !in st.sources || (owner.Some? &&
                         (st.sources[id].target.Some? || (st.sources[id].owner.Some? && st.sources[id].owner != owner))))
            && (result.Failure? ==> result.error == NotFound)
            && (result.Success? && id in st.subscriptions ==> result.value == DeleteSubscription(st, id, now))
            && (result.Success? && id !in st.subscriptions && st.sources[id].target.Some? ==>
                  result.value == RemoveTarget(st, st.sources[id].target.value))
            && (result.Success? && id !in st.subscriptions && st.sources[id].target.None? ==>
                  var after := result.value;
                  && after == st.(sources := after.sources, jobs := after.jobs)
                  && after.sources == st.sources - {id}
                  && (forall j :: j in after.jobs <==> j in st.jobs && st.jobs[j].source != id)
                  && (forall j :: j in after.jobs ==> after.jobs[j] == st.jobs[j]))
  {
  }

  lemma DeleteSourceKeeps(st: Store, id: Id, owner: Option<Id>, now: int)
    requires Inv(st) && DeleteSource(st, id, owner, now).Success?
    requires id in st.sources && st.sources[id].target.Some? && !OwnSubscription(st, id, owner) ==>
               !Subscribed(st.subscriptions, st.sources[id].target.value)
    ensures Inv(DeleteSource(st, id, owner, now).value)
  {
    if OwnSubscription(st, id, owner) {
      DeleteSubscriptionKeeps(st, id, now);
    } else if st.sources[id].target.None? {
      RemoveSourceKeeps(st, id);
    } else {
      RemoveTargetKeepsIffUnclaimed(st, st.sources[id].target.value);
    }
  }

  // ---- pins set by hand, and videos --------------------------------------------------------

  function SetPin(st: Store, t: Id, enabled: bool, interval: nat, now: int): Store {
    if t !in st.targets then st
    else
      var last := if t in st.pins then st.pins[t].lastDispatched else None;
      var next := if enabled || t !in st.pins then now else st.pins[t].nextRun;
      st.(pins := st.pins[t := Pin(enabled, interval, next, last)])
  }

  /** A pin set by hand is as asked and keeps its date; switched on, or new, it is due at once, and else when
      it was. */
  lemma SetPinMeans(st: Store, t: Id, enabled: bool, interval: nat, now: int, other: Id)
    ensures var after := SetPin(st, t, enabled, interval, now);
            && (t !in st.targets ==> after == st)
            && after == st.(pins := after.pins)
            && (other != t && other in st.pins ==> other in after.pins && after.pins[other] == st.pins[other])
            && (other != t && other !in st.pins ==> other !in after.pins)
            && (t in st.targets ==>
                  && t in after.pins && after.pins[t].enabled == enabled && after.pins[t].interval == interval
                  && after.pins[t].lastDispatched == (if t in st.pins then st.pins[t].lastDispatched else None)
                  && (enabled ==> after.pins[t].nextRun == now)
                  && (!enabled && t in st.pins ==> after.pins[t].nextRun == st.pins[t].nextRun)
                  && (t !in st.pins ==> after.pins[t].nextRun == now))
  {
  }

  function TargetBehind(st: Store, source: Id): Option<Id> {
    if source in st.subscriptions then Some(st.subscriptions[source].target)
    else if source in st.sources then st.sources[source].target
    else None
  }

  /** The first time a video is seen for a target is kept. */
  function LinkVideo(st: Store, source: Id, v: Id, now: int): Store {
    match TargetBehind(st, source)
    case None => st
    case Some(t) => st.(
      targetVideos := st.targetVideos[t := Members(st.targetVideos, t) + {v}],
      firstSeen := if (t, v) in st.firstSeen then st.firstSeen else st.firstSeen[(t, v) := now])
  }

  lemma LinkVideoKeepsVideos(st: Store, source: Id, v: Id, now: int)
    requires VideosOk(st.targets, st.targetVideos, st.firstSeen)
    requires TargetBehind(st, source).Some? ==> TargetBehind(st, source).value in st.targets
    ensures VideosOk(st.targets, LinkVideo(st, source, v, now).targetVideos, LinkVideo(st, source, v, now).firstSeen)
  {
    if TargetBehind(st, source).Some? {
      var after, t := LinkVideo(st, source, v, now), TargetBehind(st, source).value;
      forall u, x ensures x in Members(after.targetVideos, u) <==> (u, x) in after.firstSeen {
        assert x in Members(st.targetVideos, u) <==> (u, x) in st.firstSeen;
      }
    }
  }

  /** A link adds one video to one target, the one behind the public id, and dates it unless it has a date. */
  lemma LinkVideoMeans(st: Store, source: Id, v: Id, now: int, u: Id, x: Id)
    requires SourcesOk(st.targets, st.sources) && VideosOk(st.targets, st.targetVideos, st.firstSeen)
    ensures var after, linked := LinkVideo(st, source, v, now), TargetBehind(st, source) == Some(u) && x == v;
            && after == st.(targetVideos := after.targetVideos, firstSeen := after.firstSeen)
            && (x in Members(after.targetVideos, u) <==> x in Members(st.targetVideos, u) || linked)
            && ((u, x) in st.firstSeen ==> (u, x) in after.firstSeen && after.firstSeen[(u, x)] == st.firstSeen[(u, x)])
            && (linked && (u, x) !in st.firstSeen ==> (u, x) in after.firstSeen && after.firstSeen[(u, x)] == now)
    ensures source in st.subscriptions ==> TargetBehind(st, source) == Some(st.subscriptions[source].target)
    ensures source !in st.subscriptions ==>
              TargetBehind(st, source) == if source in st.sources then st.sources[source].target else None
  {
  }

  lemma TargetBehindExists(st: Store, source: Id)
    requires SourcesOk(st.targets, st.sources) && SubscriptionsOk(st.targets, st.subscriptions, st.subscriptionIds)
    ensures TargetBehind(st, source).Some? ==> TargetBehind(st, source).value in st.targets
  {
    if source in st.sources && st.sources[source].target.Some? {
      assert Backs(st.sources, source, st.sources[source].target.value);
    }
  }

  lemma VideosChanged(st: Store, videos: map<Id, set<Id>>, seen: map<(Id, Id), int>)
    requires Inv(st) && VideosOk(st.targets, videos, seen)
    ensures Inv(st.(targetVideos := videos, firstSeen := seen))
  {
  }

  lemma LinkVideoKeeps(st: Store, source: Id, v: Id, now: int)
    requires Inv(st)
    ensures Inv(LinkVideo(st, source, v, now))
  {
    var after := LinkVideo(st, source, v, now);
    TargetBehindExists(st, source);
    LinkVideoKeepsVideos(st, source, v, now);
    VideosChanged(st, after.targetVideos, after.firstSeen);
    assert after == st.(targetVideos := after.targetVideos, firstSeen := after.firstSeen);
  }
}
