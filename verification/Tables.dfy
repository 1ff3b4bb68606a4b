/** Searches and rewrites over the repository's dictionaries, one loop each. */
module Tables {
  import opened Common
  import opened CollectionPolicy
  import opened Jobs
  import opened Store
  import opened Sources
  import opened Lifecycle
  import opened Submission
  import opened Promotion
  import K = Checkpoints

  /** Replaces every value of a dictionary. */
  method ReplaceEach<K(==), V>(m: map<K, V>, f: V -> V) returns (r: map<K, V>)
    ensures r.Keys == m.Keys && forall k :: k in m ==> r[k] == f(m[k])
  {
    r := m;
    var rest := m.Keys;
    while rest != {}
      invariant rest <= m.Keys && r.Keys == m.Keys
      invariant forall k :: k in m ==> r[k] == if k in rest then m[k] else f(m[k])
      decreases rest
    {
      var k :| k in rest;
      rest := rest - {k};
      r := r[k := f(m[k])];
    }
  }

  /** The oldest unfinished job of a target. */
  method FindActive(jobs: JobMap, t: Id) returns (j: Option<Id>)
    ensures j.Some? ==> IsActive(jobs, j.value, t)
                            && forall o :: IsActive(jobs, o, t) ==> jobs[j.value].created <= jobs[o].created
    ensures j.None? ==> !HasActive(jobs, t)
  {
    j := None;
    var rest := jobs.Keys;
    while rest != {}
      invariant rest <= jobs.Keys
      invariant j.Some? ==> IsActive(jobs, j.value, t)
      invariant forall o :: IsActive(jobs, o, t) && o !in rest ==> j.Some? && jobs[j.value].created <= jobs[o].created
      decreases rest
    {
      var o :| o in rest;
      rest := rest - {o};
      if IsActive(jobs, o, t) && (j.None? || jobs[o].created < jobs[j.value].created) {
        j := Some(o);
      }
    }
  }

  /** The worker source of a target: the candidate of the highest rank. */
  method FindPrimary(sources: map<Id, Source>, requests: map<Id, Request>, t: Id) returns (primary: Option<Id>)
    ensures primary.None? ==> Candidates(sources, requests, t) == {}
    ensures primary.Some? ==> IsBest(sources, Candidates(sources, requests, t), primary.value)
  {
    var candidates := Candidates(sources, requests, t);
    var rest := candidates;
    primary := None;
    while rest != {}
      invariant rest <= candidates
      invariant primary.None? ==> rest == candidates
      invariant primary.Some? ==> IsBest(sources, candidates - rest, primary.value)
      decreases rest
    {
      var s :| s in rest;
      var better := primary.None? || RanksLess(CoverageRank(sources[primary.value]), CoverageRank(sources[s]));
      BestOfOneMore(sources, candidates - rest, primary, s, better);
      assert candidates - (rest - {s}) == (candidates - rest) + {s};
      rest := rest - {s};
      if better {
        primary := Some(s);
      }
    }
    assert candidates - rest == candidates;
  }

  lemma BestOfOneMore(sources: map<Id, Source>, seen: set<Id>, best: Option<Id>, s: Id, better: bool)
    requires s in sources && (best.None? ==> seen == {}) && (best.Some? ==> IsBest(sources, seen, best.value))
    requires better == (best.None? || RanksLess(CoverageRank(sources[best.value]), CoverageRank(sources[s])))
    ensures IsBest(sources, seen + {s}, if better then s else best.value)
  {
    RanksTotal(CoverageRank(sources[s]), CoverageRank(sources[s]));
    if better && best.Some? {
      forall other | other in seen && other in sources
        ensures !RanksLess(CoverageRank(sources[s]), CoverageRank(sources[other]))
      {
        if RanksLess(CoverageRank(sources[s]), CoverageRank(sources[other])) {
          RanksTransitive(CoverageRank(sources[best.value]), CoverageRank(sources[s]), CoverageRank(sources[other]));
        }
      }
    }
  }

  /** Whether somebody has the target enabled. */
  method AnyEnabled(subs: map<Id, Subscription>, t: Id) returns (found: bool)
    ensures found == HasEnabled(subs, t)
  {
    found := false;
    var rest := subs.Keys;
    while rest != {}
      invariant rest <= subs.Keys
      invariant found ==> HasEnabled(subs, t)
      invariant !found ==> forall s :: Enables(subs, s, t) ==> s in rest
      decreases rest
    {
      var s :| s in rest;
      rest := rest - {s};
      if Enables(subs, s, t) {
        found := true;
      }
    }
  }

  /** An earlier request of the same action. */
  method FindReplay(requests: map<Id, Request>, sub: Submission, t: Id) returns (r: Option<Id>)
    ensures r.Some? ==> IsReplay(EMPTY.(requests := requests), r.value, sub, t)
    ensures r.None? ==> forall o :: !IsReplay(EMPTY.(requests := requests), o, sub, t)
  {
    ghost var st := EMPTY.(requests := requests);
    r := None;
    var rest := requests.Keys;
    while rest != {}
      invariant rest <= requests.Keys
      invariant r.Some? ==> IsReplay(st, r.value, sub, t)
      invariant r.None? ==> forall o :: IsReplay(st, o, sub, t) ==> o in rest
      decreases rest
    {
      var o :| o in rest;
      rest := rest - {o};
      var candidate := requests[o];
      if Keyed(candidate) && candidate.key == sub.idempotencyKey && candidate.user == sub.owner && candidate.target == t {
        r := Some(o);
      }
    }
  }

  /** Points every name at the target. */
  method NameTarget(aliases: map<Alias, Id>, kind: SourceType, names: seq<(string, string)>, t: Id)
      returns (after: map<Alias, Id>)
    ensures after == AddAliases(aliases, kind, names, t)
  {
    after := aliases;
    for i := 0 to |names|
      invariant AddAliases(after, kind, names[i..], t) == AddAliases(aliases, kind, names, t)
    {
      after := after[Alias(kind, names[i].0, names[i].1) := t];
      assert names[i..][1..] == names[i + 1..];
    }
  }

  /** The oldest job that can be claimed. */
  method FindClaimable(jobs: JobMap, now: int) returns (j: Option<Id>)
    ensures j.Some? ==> IsOldestClaimable(jobs, j.value, now)
    ensures j.None? ==> forall o :: o in jobs ==> !Claimable(jobs[o], now)
  {
    j := None;
    var rest := jobs.Keys;
    while rest != {}
      invariant rest <= jobs.Keys
      invariant j.Some? ==> j.value in jobs && Claimable(jobs[j.value], now)
      invariant forall o :: o in jobs && o !in rest && Claimable(jobs[o], now) ==>
                  j.Some? && jobs[j.value].created <= jobs[o].created
      decreases rest
    {
      var o :| o in rest;
      rest := rest - {o};
      if Claimable(jobs[o], now) && (j.None? || jobs[o].created < jobs[j.value].created) {
        j := Some(o);
      }
    }
  }

  /** The requests waiting for a target, each given the job; whether there were any. */
  method AttachWaiting(requests: map<Id, Request>, t: Id, j: Id) returns (after: map<Id, Request>, any: bool)
    ensures after == Attached(requests, t, j)
    ensures any == SomeWait(requests, t)
  {
    after := ReplaceEach(requests, (r: Request) => if Waits(r, t) then r.(job := Some(j)) else r);
    assert after == Attached(requests, t, j);
    any := false;
    var rest := requests.Keys;
    while rest != {}
      invariant rest <= requests.Keys
      invariant any ==> SomeWait(requests, t)
      invariant !any ==> forall r :: r in requests && Waits(requests[r], t) ==> r in rest
      decreases rest
    {
      var r :| r in rest;
      rest := rest - {r};
      if Waits(requests[r], t) {
        any := true;
      }
    }
  }

  /** Children of a job, counted. */
  method CountChildren(jobs: JobMap, parent: Id) returns (s: Summary)
    ensures s == ChildJobSummary(jobs, parent)
  {
    var children := set c | c in jobs && IsChild(jobs, c, parent);
    var terminal := set c | c in children && IsTerminal(jobs[c].state);
    var failed := set c | c in children && jobs[c].state in {FAILED, CANCELLED};
    s := Summary(|children|, |terminal|, |failed|);
  }

  /** A queued job for each distinct video that has none yet. */
  method AddVideoJobs(jobs: JobMap, parentId: Id, parent: Job, videos: seq<string>, ids: seq<Id>, now: int)
      returns (after: JobMap, created: nat)
    requires |ids| == |videos| && UnusedIds(jobs, ids)
    ensures after == EnqueueVideoJobs(jobs, parentId, parent, videos, ids, now)
    ensures |after| == |jobs| + created
  {
    after, created := jobs, 0;
    var known := set c | c in jobs && IsChild(jobs, c, parentId) :: VideoOf(jobs[c]);
    KnownVideos(jobs, parentId, known);
    for i := 0 to |videos|
      invariant after == EnqueueVideoJobs(jobs, parentId, parent, videos[..i], ids[..i], now)
      invariant forall v :: K.Text(v) in known <==> HasChildFor(after, parentId, v)
      invariant |after| == |jobs| + created
    {
      ghost var before := after;
      var video := videos[i];
      assert videos[..i + 1][..i] == videos[..i] && ids[..i + 1][..i] == ids[..i];
      if video != "" && K.Text(video) !in known {
        UnusedHere(jobs, parentId, parent, videos, ids, now, i);
        after := after[ids[i] := ChildJob(parentId, parent, video, now)];
        known := known + {K.Text(video)};
        created := created + 1;
        ChildAdded(before, ids[i], parentId, parent, video, now);
      }
    }
    assert videos[..|videos|] == videos && ids[..|videos|] == ids;
  }

  lemma KnownVideos(jobs: JobMap, parentId: Id, known: set<K.Value>)
    requires known == set c | c in jobs && IsChild(jobs, c, parentId) :: VideoOf(jobs[c])
    ensures forall v :: K.Text(v) in known <==> HasChildFor(jobs, parentId, v)
  {
    forall v ensures K.Text(v) in known <==> HasChildFor(jobs, parentId, v) {
      if K.Text(v) in known {
        var c :| c in jobs && IsChild(jobs, c, parentId) && VideoOf(jobs[c]) == K.Text(v);
        assert HasChildFor(jobs, parentId, v);
      }
    }
  }

  lemma UnusedHere(jobs: JobMap, parentId: Id, parent: Job, videos: seq<string>, ids: seq<Id>, now: int, i: nat)
    requires |ids| == |videos| && UnusedIds(jobs, ids) && i < |videos|
    ensures ids[i] !in EnqueueVideoJobs(jobs, parentId, parent, videos[..i], ids[..i], now)
  {
    IdStaysUnused(jobs, parentId, parent, videos[..i], ids[..i], now, ids[i]);
  }

  lemma ChildAdded(jobs: JobMap, id: Id, parentId: Id, parent: Job, video: string, now: int)
    requires id !in jobs
    ensures forall v :: HasChildFor(jobs[id := ChildJob(parentId, parent, video, now)], parentId, v) <==>
              HasChildFor(jobs, parentId, v) || v == video
  {
    var after := jobs[id := ChildJob(parentId, parent, video, now)];
    forall v ensures HasChildFor(after, parentId, v) <==> HasChildFor(jobs, parentId, v) || v == video {
      assert IsChild(after, id, parentId) && VideoOf(after[id]) == K.Text(video);
      if HasChildFor(jobs, parentId, v) {
        var c :| IsChild(jobs, c, parentId) && VideoOf(jobs[c]) == K.Text(v);
        assert IsChild(after, c, parentId);
      }
      if HasChildFor(after, parentId, v) {
        var c :| IsChild(after, c, parentId) && VideoOf(after[c]) == K.Text(v);
        assert c != id ==> IsChild(jobs, c, parentId);
      }
    }
  }

  // ---- merging the subscribers of two targets, one subscription at a time --------------------

  /** The index finds every subscription, and only those. */
  ghost predicate Indexed(subs: map<Id, Subscription>, ids: map<(Id, Id), Id>) {
    && (forall s :: s in subs ==> PairOf(subs[s]) in ids && ids[PairOf(subs[s])] == s)
    && (forall p :: p in ids ==> ids[p] in subs && PairOf(subs[ids[p]]) == p)
  }

  /** A subscription once those in `done` have moved. */
  function Through(subs: map<Id, Subscription>, ids: map<(Id, Id), Id>, cur: Id, tgt: Id, done: set<Id>, s: Id): Subscription
    requires s in subs
  {
    var sub := subs[s];
    if sub.target == cur then (if s in done then sub.(target := tgt) else sub)
    else if sub.target == tgt && (sub.user, cur) in ids && ids[(sub.user, cur)] in done && ids[(sub.user, cur)] in subs then
      sub.(enabled := sub.enabled || subs[ids[(sub.user, cur)]].enabled)
    else sub
  }

  ghost predicate SubsThrough(subs: map<Id, Subscription>, ids: map<(Id, Id), Id>, cur: Id, tgt: Id, done: set<Id>,
                              now: map<Id, Subscription>) {
    && (forall s :: s in now <==> s in subs && !(s in done && Absorbed(subs, ids, s, cur, tgt)))
    && (forall s :: s in now ==> now[s] == Through(subs, ids, cur, tgt, done, s))
  }

  ghost predicate IdsThrough(subs: map<Id, Subscription>, ids: map<(Id, Id), Id>, cur: Id, tgt: Id, done: set<Id>,
                             now: map<(Id, Id), Id>) {
    && (forall p :: p in now <==>
          || (p in ids && !(p.1 == cur && ids[p] in done))
          || (p.1 == tgt && (p.0, cur) in ids && ids[(p.0, cur)] in done))
    && (forall p :: p in now ==> (p in ids || (p.0, cur) in ids) && now[p] == if p in ids then ids[p] else ids[(p.0, cur)])
  }

  ghost predicate MovedThrough(subs: map<Id, Subscription>, ids: map<(Id, Id), Id>, cur: Id, tgt: Id, done: set<Id>,
                               moved: map<Id, Id>) {
    forall s :: (s in moved <==> s in done && Absorbed(subs, ids, s, cur, tgt)) &&
                (s in moved ==> moved[s] == ids[(subs[s].user, tgt)])
  }

  method MergeSubscribers(subs: map<Id, Subscription>, ids: map<(Id, Id), Id>, cur: Id, tgt: Id)
      returns (newSubs: map<Id, Subscription>, newIds: map<(Id, Id), Id>, moved: map<Id, Id>)
    requires cur != tgt && Indexed(subs, ids)
    ensures newSubs == MergedSubscriptions(subs, ids, cur, tgt) && newIds == MergedIds(ids, cur, tgt)
    ensures forall s: Option<Id> ::
              NewSubscription(subs, ids, s, cur, tgt) == if s.Some? && s.value in moved then Some(moved[s.value]) else s
  {
    newSubs, newIds, moved := subs, ids, map[];
    var all := set s | s in subs && subs[s].target == cur;
    var rest := all;
    while rest != {}
      invariant rest <= all
      invariant SubsThrough(subs, ids, cur, tgt, all - rest, newSubs)
      invariant IdsThrough(subs, ids, cur, tgt, all - rest, newIds)
      invariant MovedThrough(subs, ids, cur, tgt, all - rest, moved)
      decreases rest
    {
      var s :| s in rest;
      ghost var done := all - rest;
      rest := rest - {s};
      assert all - rest == done + {s};
      newSubs, newIds, moved := MergeSubscriber(newSubs, newIds, moved, cur, tgt, s, subs, ids, done);
    }
    assert all - rest == all;
    AllMoved(subs, ids, cur, tgt, all, newSubs, newIds);
  }

  /** One subscriber: absorbed by the subscription there is, or moved. */
  method MergeSubscriber(nowSubs: map<Id, Subscription>, nowIds: map<(Id, Id), Id>, nowMoved: map<Id, Id>, cur: Id,
                         tgt: Id, s: Id,
                         ghost subs: map<Id, Subscription>, ghost ids: map<(Id, Id), Id>, ghost done: set<Id>)
      returns (newSubs: map<Id, Subscription>, newIds: map<(Id, Id), Id>, moved: map<Id, Id>)
    requires cur != tgt && Indexed(subs, ids) && s in subs && subs[s].target == cur && s !in done
    requires SubsThrough(subs, ids, cur, tgt, done, nowSubs) && IdsThrough(subs, ids, cur, tgt, done, nowIds)
    requires MovedThrough(subs, ids, cur, tgt, done, nowMoved)
    ensures SubsThrough(subs, ids, cur, tgt, done + {s}, newSubs) && IdsThrough(subs, ids, cur, tgt, done + {s}, newIds)
    ensures MovedThrough(subs, ids, cur, tgt, done + {s}, moved)
  {
    StillThere(subs, ids, cur, tgt, done, nowSubs, nowIds, s);
    var sub := nowSubs[s];
    moved := nowMoved;
    if (sub.user, tgt) in nowIds {
      var existing := nowIds[(sub.user, tgt)];
      AbsorbSubs(subs, ids, cur, tgt, done, nowSubs, s, existing);
      newSubs := nowSubs[existing := nowSubs[existing].(enabled := nowSubs[existing].enabled || sub.enabled)] - {s};
      moved := moved[s := existing];
    } else {
      MoveSubs(subs, ids, cur, tgt, done, nowSubs, s);
      newSubs := nowSubs[s := sub.(target := tgt)];
    }
    MoveIds(subs, ids, cur, tgt, done, nowIds, s);
    newIds := if (sub.user, tgt) in nowIds then nowIds - {(sub.user, cur)}
              else (nowIds - {(sub.user, cur)})[(sub.user, tgt) := s];
  }

  /** A subscription that has not moved yet is as it was, and so is what the index says of its user. */
  lemma StillThere(subs: map<Id, Subscription>, ids: map<(Id, Id), Id>, cur: Id, tgt: Id, done: set<Id>,
                   nowSubs: map<Id, Subscription>, nowIds: map<(Id, Id), Id>, s: Id)
    requires cur != tgt && Indexed(subs, ids) && s in subs && subs[s].target == cur && s !in done
    requires SubsThrough(subs, ids, cur, tgt, done, nowSubs) && IdsThrough(subs, ids, cur, tgt, done, nowIds)
    ensures s in nowSubs && nowSubs[s] == subs[s]
    ensures (subs[s].user, tgt) in nowIds <==> Absorbed(subs, ids, s, cur, tgt)
    ensures Absorbed(subs, ids, s, cur, tgt) ==>
              && nowIds[(subs[s].user, tgt)] == ids[(subs[s].user, tgt)]
              && ids[(subs[s].user, tgt)] in nowSubs
  {
  }

  lemma AbsorbSubs(subs: map<Id, Subscription>, ids: map<(Id, Id), Id>, cur: Id, tgt: Id, done: set<Id>,
                   now: map<Id, Subscription>, s: Id, existing: Id)
    requires cur != tgt && Indexed(subs, ids) && s in subs && subs[s].target == cur && s !in done
    requires SubsThrough(subs, ids, cur, tgt, done, now)
    requires Absorbed(subs, ids, s, cur, tgt) && existing == ids[(subs[s].user, tgt)] && existing in now && s in now
    ensures SubsThrough(subs, ids, cur, tgt, done + {s},
                        now[existing := now[existing].(enabled := now[existing].enabled || subs[s].enabled)] - {s})
  {
    var after := now[existing := now[existing].(enabled := now[existing].enabled || subs[s].enabled)] - {s};
    assert subs[existing].user == subs[s].user && subs[existing].target == tgt;
    forall x ensures x in after <==> x in subs && !(x in done + {s} && Absorbed(subs, ids, x, cur, tgt)) {
      assert x in now <==> x in subs && !(x in done && Absorbed(subs, ids, x, cur, tgt));
    }
    assert after[existing] == Through(subs, ids, cur, tgt, done + {s}, existing);
    forall x | x in now && x != existing && x != s
      ensures Through(subs, ids, cur, tgt, done + {s}, x) == Through(subs, ids, cur, tgt, done, x)
    {
      assert ids[PairOf(subs[x])] == x;
    }
  }

  lemma MoveSubs(subs: map<Id, Subscription>, ids: map<(Id, Id), Id>, cur: Id, tgt: Id, done: set<Id>,
                 now: map<Id, Subscription>, s: Id)
    requires cur != tgt && Indexed(subs, ids) && s in subs && subs[s].target == cur && s !in done
    requires SubsThrough(subs, ids, cur, tgt, done, now) && !Absorbed(subs, ids, s, cur, tgt)
    ensures SubsThrough(subs, ids, cur, tgt, done + {s}, now[s := subs[s].(target := tgt)])
  {
    forall x | x in now && x != s ensures Through(subs, ids, cur, tgt, done + {s}, x) == Through(subs, ids, cur, tgt, done, x) {
      assert ids[PairOf(subs[x])] == x;
    }
  }

  lemma MoveIds(subs: map<Id, Subscription>, ids: map<(Id, Id), Id>, cur: Id, tgt: Id, done: set<Id>,
                now: map<(Id, Id), Id>, s: Id)
    requires cur != tgt && Indexed(subs, ids) && s in subs && subs[s].target == cur && s !in done
    requires IdsThrough(subs, ids, cur, tgt, done, now)
    ensures IdsThrough(subs, ids, cur, tgt, done + {s},
                       if (subs[s].user, tgt) in now then now - {(subs[s].user, cur)}
                       else (now - {(subs[s].user, cur)})[(subs[s].user, tgt) := s])
  {
    assert PairOf(subs[s]) == (subs[s].user, cur);
    forall p | p in ids && p.1 == cur && ids[p] == s ensures p == (subs[s].user, cur) {
    }
  }

  lemma AllMovedSubs(subs: map<Id, Subscription>, ids: map<(Id, Id), Id>, cur: Id, tgt: Id, all: set<Id>,
                     nowSubs: map<Id, Subscription>)
    requires cur != tgt && Indexed(subs, ids) && all == set s | s in subs && subs[s].target == cur
    requires SubsThrough(subs, ids, cur, tgt, all, nowSubs)
    ensures nowSubs == MergedSubscriptions(subs, ids, cur, tgt)
  {
  }

  lemma AllMoved(subs: map<Id, Subscription>, ids: map<(Id, Id), Id>, cur: Id, tgt: Id, all: set<Id>,
                 nowSubs: map<Id, Subscription>, nowIds: map<(Id, Id), Id>)
    requires cur != tgt && Indexed(subs, ids) && all == set s | s in subs && subs[s].target == cur
    requires SubsThrough(subs, ids, cur, tgt, all, nowSubs) && IdsThrough(subs, ids, cur, tgt, all, nowIds)
    ensures nowSubs == MergedSubscriptions(subs, ids, cur, tgt) && nowIds == MergedIds(ids, cur, tgt)
  {
    AllMovedSubs(subs, ids, cur, tgt, all, nowSubs);
    forall p
      ensures p in nowIds <==> p in MergedIds(ids, cur, tgt)
      ensures p in nowIds ==> nowIds[p] == MergedIds(ids, cur, tgt)[p]
    {
      MovedIdAt(subs, ids, cur, tgt, all, nowIds, p.0, p.1);
      assert p == (p.0, p.1);
    }
  }

  lemma MovedIdAt(subs: map<Id, Subscription>, ids: map<(Id, Id), Id>, cur: Id, tgt: Id, all: set<Id>,
                  nowIds: map<(Id, Id), Id>,
                  user: Id, t: Id)
    requires cur != tgt && Indexed(subs, ids) && all == set s | s in subs && subs[s].target == cur
    requires IdsThrough(subs, ids, cur, tgt, all, nowIds)
    ensures (user, t) in nowIds <==> (user, t) in MergedIds(ids, cur, tgt)
    ensures (user, t) in nowIds ==> nowIds[(user, t)] == MergedIds(ids, cur, tgt)[(user, t)]
  {
    MergedIdsAt(ids, cur, tgt, user, t);
    assert (user, cur) in ids ==> ids[(user, cur)] in all;
  }

  /** The requests of a merged target: new target, the subscription that absorbed theirs, and no key
      that the surviving target has already accepted from the same user. */
  method MoveEachRequest(requests: map<Id, Request>, moved: map<Id, Id>, cur: Id, tgt: Id,
                         ghost subs: map<Id, Subscription>, ghost ids: map<(Id, Id), Id>) returns (after: map<Id, Request>)
    requires forall s: Option<Id> :: NewSubscription(subs, ids, s, cur, tgt)
                                     == if s.Some? && s.value in moved then Some(moved[s.value]) else s
    ensures after == MovedRequests(subs, ids, requests, cur, tgt)
  {
    var canonical := set o | o in requests && requests[o].target == tgt && Keyed(requests[o])
      :: (requests[o].user, requests[o].key);
    after := ReplaceEach(requests, (r: Request) =>
      if r.target != cur then r
      else r.(target := tgt,
              subscription := if r.subscription.Some? && r.subscription.value in moved then Some(moved[r.subscription.value])
                              else r.subscription,
              key := if (r.user, r.key) in canonical then None else r.key));
    forall r | r in requests ensures after[r] == MovedRequest(subs, ids, requests, requests[r], cur, tgt) {
      CanonicalKeys(requests, tgt, requests[r], canonical);
    }
    assert after == MovedRequests(subs, ids, requests, cur, tgt);
  }

  lemma CanonicalKeys(requests: map<Id, Request>, tgt: Id, r: Request, canonical: set<(Option<Id>, Option<string>)>)
    requires canonical == set o | o in requests && requests[o].target == tgt && Keyed(requests[o])
                          :: (requests[o].user, requests[o].key)
    ensures (r.user, r.key) in canonical <==> KeyTaken(requests, tgt, r)
  {
    if (r.user, r.key) in canonical {
      var o :| o in requests && requests[o].target == tgt && Keyed(requests[o])
        && (requests[o].user, requests[o].key) == (r.user, r.key);
      assert KeyTaken(requests, tgt, r);
    }
  }

  /** What the dating of memberships has become once the videos in `done` have moved. */
  ghost predicate SeenThrough(videos: map<Id, set<Id>>, seen: map<(Id, Id), int>, cur: Id, tgt: Id, done: set<Id>,
                              now: map<(Id, Id), int>) {
    && (forall p :: p in now <==> (p in seen && !(p.0 == cur && p.1 in done)) || (p.0 == tgt && p.1 in done))
    && (forall p :: p in now ==>
          now[p] == if p.0 == tgt && p.1 in done then MergedSeenAt(videos, seen, cur, tgt, p) else SeenOr(seen, p))
  }

  /** Moves the first-seen times of one target's videos to another, keeping the earlier one. */
  method MoveSeen(videos: map<Id, set<Id>>, seen: map<(Id, Id), int>, cur: Id, tgt: Id) returns (after: map<(Id, Id), int>)
    requires cur != tgt
    ensures after == MergedSeen(videos, seen, cur, tgt)
  {
    after := seen;
    var moving := if cur in videos then videos[cur] else {};
    var rest := moving;
    while rest != {}
      invariant rest <= moving
      invariant SeenThrough(videos, seen, cur, tgt, moving - rest, after)
      decreases rest
    {
      var v :| v in rest;
      ghost var done := moving - rest;
      rest := rest - {v};
      assert moving - rest == done + {v};
      var currentSeen := if (cur, v) in after then after[(cur, v)] else EPOCH;
      var kept := after - {(cur, v)};
      var canonicalSeen := if (tgt, v) in kept && kept[(tgt, v)] < currentSeen then kept[(tgt, v)] else currentSeen;
      SeenStep(videos, seen, cur, tgt, done, after, v, canonicalSeen);
      after := kept[(tgt, v) := canonicalSeen];
    }
    assert moving - rest == moving;
    SeenAll(videos, seen, cur, tgt, after);
  }

  lemma SeenStep(videos: map<Id, set<Id>>, seen: map<(Id, Id), int>, cur: Id, tgt: Id, done: set<Id>,
                 now: map<(Id, Id), int>, v: Id, kept: int)
    requires cur != tgt && v !in done && v in Members(videos, cur) && SeenThrough(videos, seen, cur, tgt, done, now)
    requires var moved := if (cur, v) in now then now[(cur, v)] else EPOCH;
             kept == if (tgt, v) in now && now[(tgt, v)] < moved then now[(tgt, v)] else moved
    ensures SeenThrough(videos, seen, cur, tgt, done + {v}, (now - {(cur, v)})[(tgt, v) := kept])
  {
    assert (cur, v) in now <==> (cur, v) in seen;
    assert (tgt, v) in now <==> (tgt, v) in seen;
  }

  lemma SeenAll(videos: map<Id, set<Id>>, seen: map<(Id, Id), int>, cur: Id, tgt: Id, now: map<(Id, Id), int>)
    requires cur != tgt && SeenThrough(videos, seen, cur, tgt, Members(videos, cur), now)
    ensures now == MergedSeen(videos, seen, cur, tgt)
  {
    var pairs := set v | v in Members(videos, cur) :: (tgt, v);
    forall p ensures p in pairs <==> p.0 == tgt && p.1 in Members(videos, cur) {
      if p.0 == tgt && p.1 in Members(videos, cur) {
        assert (tgt, p.1) in pairs;
      }
    }
  }

  method MoveEachSource(sources: map<Id, Source>, cur: Id, tgt: Id) returns (after: map<Id, Source>)
    ensures after == MovedSources(sources, cur, tgt)
  {
    after := ReplaceEach(sources, (s: Source) => if s.target == Some(cur) then s.(target := Some(tgt)) else s);
  }

  /** Unfinished jobs are let go when the surviving target has one of its own. */
  method MoveEachJob(jobs: JobMap, cur: Id, tgt: Id) returns (after: JobMap)
    ensures after == MovedJobs(jobs, cur, tgt)
  {
    var active := FindActive(jobs, tgt);
    var existingActive := active.Some?;
    assert existingActive == HasActive(jobs, tgt);
    after := ReplaceEach(jobs, (job: Job) =>
      if job.target != Some(cur) then job
      else if existingActive && !IsTerminal(job.state) then job.(target := None)
      else job.(target := Some(tgt)));
  }

  method MoveEachAlias(aliases: map<Alias, Id>, cur: Id, tgt: Id) returns (after: map<Alias, Id>)
    ensures after == MovedAliases(aliases, cur, tgt)
  {
    after := ReplaceEach(aliases, (t: Id) => if t == cur then tgt else t);
  }

  /** The pin that is due first. */
  method FindEarliest(pins: map<Id, Pin>, among: set<Id>) returns (first: Id)
    requires among != {} && among <= pins.Keys
    ensures first in among && forall o :: o in among ==> pins[first].nextRun <= pins[o].nextRun
  {
    first :| first in among;
    var rest := among - {first};
    while rest != {}
      invariant rest <= among && first in among
      invariant forall o :: o in among - rest ==> pins[first].nextRun <= pins[o].nextRun
      decreases rest
    {
      var o :| o in rest;
      rest := rest - {o};
      if pins[o].nextRun < pins[first].nextRun {
        first := o;
      }
    }
  }

  predicate Due(pin: Pin, now: int) {
    pin.enabled && pin.nextRun <= now
  }

  /** What has been handled when `rest` is still to be looked at: due pins only, each once, the
      longest overdue first; and a due one was passed over only after the limit was reached. */
  ghost predicate InTurn(pins: map<Id, Pin>, order: seq<Id>, rest: set<Id>, now: int, full: bool) {
    && (forall i :: 0 <= i < |order| ==> order[i] in pins && Due(pins[order[i]], now) && order[i] !in rest)
    && (forall i, j :: 0 <= i < j < |order| ==> order[i] != order[j] && pins[order[i]].nextRun <= pins[order[j]].nextRun)
    && (forall i, o :: 0 <= i < |order| && o in rest && o in pins ==> pins[order[i]].nextRun <= pins[o].nextRun)
    && (forall o :: o in pins && o !in rest && Due(pins[o], now) && o !in order ==>
          full && NoEarlier(pins, order, pins[o].nextRun))
  }

  ghost predicate NoEarlier(pins: map<Id, Pin>, order: seq<Id>, at: int) {
    forall i :: 0 <= i < |order| && order[i] in pins ==> pins[order[i]].nextRun <= at
  }

  lemma TurnTaken(pins: map<Id, Pin>, order: seq<Id>, rest: set<Id>, t: Id, now: int, later: bool)
    requires InTurn(pins, order, rest, now, false) && t in rest && rest <= pins.Keys && Due(pins[t], now)
    requires forall o :: o in rest ==> pins[t].nextRun <= pins[o].nextRun
    ensures InTurn(pins, order + [t], rest - {t}, now, later)
  {
    forall o | o in pins && o !in rest - {t} && Due(pins[o], now) ensures o in order + [t] {
      assert o in order || o == t;
    }
  }

  lemma TurnPassed(pins: map<Id, Pin>, order: seq<Id>, rest: set<Id>, t: Id, now: int, full: bool)
    requires InTurn(pins, order, rest, now, full) && t in rest && rest <= pins.Keys && (full || !Due(pins[t], now))
    ensures InTurn(pins, order, rest - {t}, now, full)
  {
    forall o | o in pins && o !in rest - {t} && Due(pins[o], now) && o !in order
      ensures full && NoEarlier(pins, order, pins[o].nextRun)
    {
    }
  }
}
