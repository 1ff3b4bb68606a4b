/** What a promotion means to later submissions: which target they find, and what they replay.
    apps/api/monitube_api/infrastructure/memory_jobs.py */
module Replays {
  import opened Common
  import opened CollectionPolicy
  import opened Jobs
  import opened Store
  import opened Sources
  import opened Submission
  import opened Promotion

  /** The promotion of `cur` that ends at `tgt`: a merge, or a change of name. */
  ghost predicate Ends(st: Store, source: Id, channelId: string, cur: Id, tgt: Id) {
    && KeysOk(st.targets, st.keys) && Survivor(st, source, channelId) == Some(tgt)
    && source in st.sources && st.sources[source].target == Some(cur)
  }

  /** The new names, on top of others. */
  function ChannelNames(aliases: map<Alias, Id>, t: Id, channelId: string, handle: Option<string>): map<Alias, Id> {
    var named := aliases[Alias(Channel, "channel_id", channelId) := t];
    if handle.Some? && handle.value != "" then named[Alias(Channel, "handle", handle.value) := t] else named
  }

  lemma OneNamePart(st: Store, name: string, value: string, t: Id)
    ensures var after := Named(st, name, value, t);
            && after.requests == st.requests && after.keys == st.keys
            && after.aliases == st.aliases[Alias(Channel, name, value) := t]
  {
  }

  lemma NamedParts(st: Store, t: Id, channelId: string, handle: Option<string>)
    ensures var after := WithChannelAliases(st, t, channelId, handle);
            && after.requests == st.requests && after.keys == st.keys
            && after.aliases == ChannelNames(st.aliases, t, channelId, handle)
  {
    OneNamePart(st, "channel_id", channelId, t);
    if handle.Some? && handle.value != "" {
      OneNamePart(Named(st, "channel_id", channelId, t), "handle", handle.value, t);
    }
  }

  lemma RenamedParts(st: Store, source: Id, channelId: string, handle: Option<string>, now: int, cur: Id)
    requires Ends(st, source, channelId, cur, cur)
    ensures var after := Promote(st, source, channelId, handle, now);
            && after.requests == st.requests && after.aliases == ChannelNames(st.aliases, cur, channelId, handle)
            && after.keys == (st.keys - {KeyOf(st.targets[cur])})[(Channel, CanonicalKey(channelId)) := cur]
  {
    NamedParts(Renamed(st, cur, CanonicalKey(channelId)), cur, channelId, handle);
  }

  lemma SyncedParts(st: Store, t: Id, now: int)
    ensures var after := SyncPin(st, t, now);
            after.requests == st.requests && after.keys == st.keys && after.aliases == st.aliases
  {
  }

  lemma MergedParts(st: Store, source: Id, channelId: string, handle: Option<string>, now: int, cur: Id, tgt: Id)
    requires Ends(st, source, channelId, cur, tgt) && cur != tgt
    ensures Mergeable(st, cur, tgt)
    ensures var after := Promote(st, source, channelId, handle, now);
            && after.requests == Merged(st, cur, tgt).requests
            && after.aliases == ChannelNames(MovedAliases(st.aliases, cur, tgt), tgt, channelId, handle)
            && after.keys == st.keys - {KeyOf(st.targets[cur])}
  {
    SurvivorFits(st, source, channelId);
    SyncedParts(Merged(st, cur, tgt), tgt, now);
    NamedParts(SyncPin(Merged(st, cur, tgt), tgt, now), tgt, channelId, handle);
  }

  lemma CanonicalKeyFinds(st: Store, source: Id, channelId: string, handle: Option<string>, now: int, cur: Id, tgt: Id)
    requires Ends(st, source, channelId, cur, tgt)
    ensures var keys := Promote(st, source, channelId, handle, now).keys;
            (Channel, CanonicalKey(channelId)) in keys && keys[(Channel, CanonicalKey(channelId))] == tgt
  {
    if cur == tgt {
      RenamedParts(st, source, channelId, handle, now, cur);
    } else {
      MergedParts(st, source, channelId, handle, now, cur, tgt);
      assert st.keys[KeyOf(st.targets[cur])] == cur;
    }
  }

  lemma PromotedAliases(st: Store, source: Id, channelId: string, handle: Option<string>, now: int, cur: Id, tgt: Id)
    requires Ends(st, source, channelId, cur, tgt)
    ensures Promote(st, source, channelId, handle, now).aliases ==
            ChannelNames(if cur == tgt then st.aliases else MovedAliases(st.aliases, cur, tgt), tgt, channelId, handle)
  {
    if cur == tgt {
      RenamedParts(st, source, channelId, handle, now, cur);
    } else {
      MergedParts(st, source, channelId, handle, now, cur, tgt);
    }
  }

  // ---- names -----------------------------------------------------------------------------

  /** A name that led to either target leads to the survivor, and so does every new name. */
  ghost predicate Follow(before: map<Alias, Id>, after: map<Alias, Id>, cur: Id, tgt: Id) {
    && (forall a :: a in before ==> a in after && (before[a] in {cur, tgt} ==> after[a] == tgt))
    && (forall a :: a in after ==> after[a] == tgt || (a in before && after[a] == before[a]))
  }

  lemma NamesFollow(aliases: map<Alias, Id>, cur: Id, tgt: Id, channelId: string, handle: Option<string>)
    ensures cur == tgt ==> Follow(aliases, ChannelNames(aliases, tgt, channelId, handle), cur, tgt)
    ensures Follow(aliases, ChannelNames(MovedAliases(aliases, cur, tgt), tgt, channelId, handle), cur, tgt)
  {
  }

  lemma PromotedNamesFollow(st: Store, source: Id, channelId: string, handle: Option<string>, now: int, cur: Id, tgt: Id)
    requires Ends(st, source, channelId, cur, tgt)
    ensures Follow(st.aliases, Promote(st, source, channelId, handle, now).aliases, cur, tgt)
  {
    PromotedAliases(st, source, channelId, handle, now, cur, tgt);
    NamesFollow(st.aliases, cur, tgt, channelId, handle);
  }

  lemma {:induction false} FirstNameFollows(before: map<Alias, Id>, after: map<Alias, Id>, kind: SourceType,
                                            names: seq<(string, string)>, cur: Id, tgt: Id)
    requires Follow(before, after, cur, tgt)
    requires FirstAlias(before, kind, names).Some? && FirstAlias(before, kind, names).value in {cur, tgt}
    ensures FirstAlias(after, kind, names) == Some(tgt)
  {
    var first := Alias(kind, names[0].0, names[0].1);
    if first !in after {
      FirstNameFollows(before, after, kind, names[1..], cur, tgt);
    }
  }

  /** A submission for the resolved channel finds the survivor: by its channel id, by its handle, or by
      the canonical key. */
  lemma ResolvedNamesFindSurvivor(st: Store, source: Id, channelId: string, handle: Option<string>, now: int, cur: Id,
                                  tgt: Id, sub: Submission)
    requires Ends(st, source, channelId, cur, tgt) && sub.kind == Channel
    requires || (sub.aliases != [] && sub.aliases[0] == ("channel_id", channelId))
             || (sub.aliases != [] && handle.Some? && handle.value != "" && sub.aliases[0] == ("handle", handle.value))
             || (sub.aliases == [] && sub.key == "channel:" + channelId)
    ensures FindTarget(Promote(st, source, channelId, handle, now), sub) == Some(tgt)
  {
    PromotedAliases(st, source, channelId, handle, now, cur, tgt);
    CanonicalKeyFinds(st, source, channelId, handle, now, cur, tgt);
  }

  // ---- replays -----------------------------------------------------------------------------

  /** A promotion loses no key of either target, and makes none ambiguous. */
  lemma PromotionKeepsKeys(st: Store, source: Id, channelId: string, handle: Option<string>, now: int, cur: Id, tgt: Id,
                           user: Option<Id>, key: string)
    requires Ends(st, source, channelId, cur, tgt) && ActionsOnce(st.requests) && key != ""
    requires UsedKey(st.requests, cur, user, key) || UsedKey(st.requests, tgt, user, key)
    ensures UsedKey(Promote(st, source, channelId, handle, now).requests, tgt, user, key)
    ensures KeysOnce(Promote(st, source, channelId, handle, now).requests, tgt, user, key)
  {
    if tgt != cur {
      MergedParts(st, source, channelId, handle, now, cur, tgt);
      MergeKeepsKeys(st, cur, tgt, user, key);
    } else {
      RenamedParts(st, source, channelId, handle, now, cur);
      ActionsOnceMeans(st.requests, tgt, user, key);
    }
  }

  lemma ReplayUnder(st: Store, sub: Submission, again: Choices, later: int, t: Id)
    requires FindTarget(st, sub) == Some(t) && sub.idempotencyKey.Some? && sub.idempotencyKey.value != ""
    requires UsedKey(st.requests, t, sub.owner, sub.idempotencyKey.value)
    ensures Submit(st, sub, again, later) == st
  {
    var r :| RequestUnder(st.requests, r, t, sub.owner, sub.idempotencyKey.value);
    assert IsReplay(st, r, sub, t);
  }

  lemma KeyIsUsed(st: Store, sub: Submission, ids: Choices, now: int)
    requires Inv(st) && FreshChoices(st, sub, ids) && sub.idempotencyKey.Some? && sub.idempotencyKey.value != ""
    ensures UsedKey(Submit(st, sub, ids, now).requests, TargetFor(st, sub, ids.target), sub.owner, sub.idempotencyKey.value)
    ensures Core(Submit(st, sub, ids, now))
  {
    var t := TargetFor(st, sub, ids.target);
    SubmitKeeps(st, sub, ids, now);
    if NoReplay(st, sub, t) {
      RequestRecorded(st, sub, ids, now);
      assert RequestUnder(Submit(st, sub, ids, now).requests, ids.request, t, sub.owner, sub.idempotencyKey.value);
    } else {
      var r :| IsReplay(st, r, sub, t);
      assert RequestUnder(st.requests, r, t, sub.owner, sub.idempotencyKey.value);
    }
  }

  /** A keyed request sent again after its target was renamed or merged is still a replay, if one of its
      names leads to the survivor. */
  lemma SubmitTwiceAcrossPromotion(st: Store, sub: Submission, ids: Choices, now: int, source: Id, channelId: string,
                                   handle: Option<string>, promotedAt: int, cur: Id, tgt: Id, again: Choices, later: int)
    requires Inv(st) && FreshChoices(st, sub, ids) && sub.idempotencyKey.Some? && sub.idempotencyKey.value != ""
    requires Ends(Submit(st, sub, ids, now), source, channelId, cur, tgt) && TargetFor(st, sub, ids.target) in {cur, tgt}
    requires FindTarget(Promote(Submit(st, sub, ids, now), source, channelId, handle, promotedAt), sub) == Some(tgt)
    ensures var promoted := Promote(Submit(st, sub, ids, now), source, channelId, handle, promotedAt);
            Submit(promoted, sub, again, later) == promoted
  {
    var once := Submit(st, sub, ids, now);
    KeyIsUsed(st, sub, ids, now);
    PromotionKeepsKeys(once, source, channelId, handle, promotedAt, cur, tgt, sub.owner, sub.idempotencyKey.value);
    ReplayUnder(Promote(once, source, channelId, handle, promotedAt), sub, again, later, tgt);
  }

  /** A name does: whenever the first submission was not itself a replay and had a name. */
  lemma NamesSurvivePromotion(st: Store, sub: Submission, ids: Choices, now: int, source: Id, channelId: string,
                              handle: Option<string>, promotedAt: int, cur: Id, tgt: Id)
    requires NoReplay(st, sub, TargetFor(st, sub, ids.target)) && sub.aliases != []
    requires Ends(Submit(st, sub, ids, now), source, channelId, cur, tgt) && TargetFor(st, sub, ids.target) in {cur, tgt}
    ensures FindTarget(Promote(Submit(st, sub, ids, now), source, channelId, handle, promotedAt), sub) == Some(tgt)
  {
    var t, once := TargetFor(st, sub, ids.target), Submit(st, sub, ids, now);
    ConfiguredKeepsNames(Placed(st, sub, ids, now), sub, t, ids.primary.GetOr(ids.source), ids, now);
    AliasesLeadBack(WithTarget(st, sub, ids.target).aliases, sub.kind, sub.aliases, t);
    PromotedNamesFollow(once, source, channelId, handle, promotedAt, cur, tgt);
    FirstNameFollows(once.aliases, Promote(once, source, channelId, handle, promotedAt).aliases, sub.kind, sub.aliases,
                     cur, tgt);
  }
}
