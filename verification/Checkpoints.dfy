/** Durable collection checkpoints: apps/worker/monitube_worker/collection/checkpoints.py. */
module Checkpoints {
  import opened Common

  /** Progress of one collection phase; the total is unknown until discovery ends. */
  datatype Phase = Phase(completed: nat, total: Option<nat>)

  /** The JSON values a checkpoint holds. An upstream page token is named by the page it opens. */
  datatype Value =
    | Null
    | Text(text: string)
    | Number(number: int)
    | Flag(flag: bool)
    | PageToken(page: nat)
    | Phases(phases: map<string, Phase>)

  type Checkpoint = map<string, Value>

  const DURABLE_CHECKPOINT_KEYS: set<string> :=
    { "jobKind", "youtubeVideoId", "fanoutDiscovered", "fanoutVideoCount",
      "phaseProgress", "quotaRetryAttempt", "keywordExpectedTotal" }

  function TokenValue(token: Option<nat>): Value {
    match token
    case None => Null
    case Some(page) => PageToken(page)
  }

  function AsInt(v: Value): int {
    if v.Number? then v.number else 0
  }

  function Lookup(checkpoint: Checkpoint, key: string): Value {
    if key in checkpoint then checkpoint[key] else Null
  }

  /** Replaces the cursor and keeps only the durable keys of the active checkpoint. */
  function CheckpointPayload(active: Checkpoint, stage: string, scopeKey: string,
                             pageToken: Option<nat>, batchCursor: int): Checkpoint {
    (map key | key in active && key in DURABLE_CHECKPOINT_KEYS :: active[key])
    + map["stage" := Text(stage), "scopeKey" := Text(scopeKey),
          "pageToken" := TokenValue(pageToken), "batchCursor" := Number(batchCursor)]
  }

  /** The cursor a resumed job starts from: nothing unless stage and scope both match. */
  function ResumeCursor(checkpoint: Checkpoint, stage: string, scopeKey: string): (Option<nat>, int) {
    if Lookup(checkpoint, "stage") != Text(stage) || Lookup(checkpoint, "scopeKey") != Text(scopeKey) then
      (None, 0)
    else
      var token := Lookup(checkpoint, "pageToken");
      (if token.PageToken? then Some(token.page) else None, AsInt(Lookup(checkpoint, "batchCursor")))
  }

  function WithPhaseProgress(active: Checkpoint, phase: string, completed: int, total: Option<int>): Checkpoint {
    var existing := Lookup(active, "phaseProgress");
    var phases := if existing.Phases? then existing.phases else map[];
    var bounded := match total case None => None case Some(t) => Some(Max(0, t) as nat);
    active["phaseProgress" := Phases(phases[phase := Phase(Max(0, completed), bounded)])]
  }

  /** Every way the worker rewrites the checkpoint of a running job. */
  datatype Rewrite =
    | Cursor(stage: string, scopeKey: string, pageToken: Option<nat>, batchCursor: int)
    | Progress(phase: string, completed: int, total: Option<int>)
    | QuotaRetry
    | FanoutFound(videos: nat)
    | KeywordTotal(expected: int)

  function Apply(active: Checkpoint, rewrite: Rewrite): Checkpoint {
    match rewrite
    case Cursor(stage, scopeKey, token, batch) => CheckpointPayload(active, stage, scopeKey, token, batch)
    case Progress(phase, completed, total) => WithPhaseProgress(active, phase, completed, total)
    case QuotaRetry =>
      active["quotaRetryAttempt" := Number(AsInt(Lookup(active, "quotaRetryAttempt")) + 1)]
    case FanoutFound(videos) =>
      active["fanoutDiscovered" := Flag(true)]["fanoutVideoCount" := Number(videos)]
    case KeywordTotal(expected) => active["keywordExpectedTotal" := Number(expected)]
  }

  function ApplyAll(active: Checkpoint, rewrites: seq<Rewrite>): Checkpoint {
    if rewrites == [] then active
    else Apply(ApplyAll(active, rewrites[..|rewrites| - 1]), rewrites[|rewrites| - 1])
  }

  /** A written cursor is read back exactly by its own stage and scope, and by no other. */
  lemma CursorRoundTrip(active: Checkpoint, stage: string, scope: string, token: Option<nat>, batch: int,
                        otherStage: string, otherScope: string)
    ensures var written := CheckpointPayload(active, stage, scope, token, batch);
            ResumeCursor(written, otherStage, otherScope) ==
            if otherStage == stage && otherScope == scope then (token, batch) else (None, 0)
  {
    var written := CheckpointPayload(active, stage, scope, token, batch);
    assert Lookup(written, "stage") == Text(stage);
    assert Lookup(written, "scopeKey") == Text(scope);
    assert Lookup(written, "pageToken") == TokenValue(token);
    assert Lookup(written, "batchCursor") == Number(batch);
  }

  /** The identity of a job (its kind and its video) survives every sequence of rewrites,
      and a job that once discovered its children never forgets that it did. */
  lemma {:induction false} IdentitySurvives(active: Checkpoint, rewrites: seq<Rewrite>)
    ensures var last := ApplyAll(active, rewrites);
            && (forall key | key in {"jobKind", "youtubeVideoId"} :: Lookup(last, key) == Lookup(active, key))
            && (Lookup(active, "fanoutDiscovered") == Flag(true) ==> Lookup(last, "fanoutDiscovered") == Flag(true))
  {
    if rewrites != [] {
      IdentitySurvives(active, rewrites[..|rewrites| - 1]);
      RewriteKeeps(ApplyAll(active, rewrites[..|rewrites| - 1]), rewrites[|rewrites| - 1]);
    }
  }

  lemma RewriteKeeps(active: Checkpoint, rewrite: Rewrite)
    ensures forall key | key in {"jobKind", "youtubeVideoId"} ::
              Lookup(Apply(active, rewrite), key) == Lookup(active, key)
    ensures Lookup(active, "fanoutDiscovered") == Flag(true)
            ==> Lookup(Apply(active, rewrite), "fanoutDiscovered") == Flag(true)
  {
    var k1, k2, k3 := "jobKind", "youtubeVideoId", "fanoutDiscovered";
    assert k1[0] == 'j' && k2[0] == 'y' && k3[0] == 'f' && |k3| == 16;
  }

  /** Writing any other key leaves the paid-for page cursor where it was. */
  lemma OtherKeysKeepCursor(active: Checkpoint, key: string, value: Value, stage: string, scope: string)
    requires key !in {"stage", "scopeKey", "pageToken", "batchCursor"}
    ensures ResumeCursor(active[key := value], stage, scope) == ResumeCursor(active, stage, scope)
  {
  }

  /** What is read back after a rewrite: a counted quota retry, the expected total, a discovery and its size. */
  lemma RewriteIsReadBack(active: Checkpoint, expected: int, videos: nat)
    ensures AsInt(Lookup(Apply(active, QuotaRetry), "quotaRetryAttempt"))
            == (match Lookup(active, "quotaRetryAttempt") case Number(n) => n + 1 case _ => 1)
    ensures Lookup(Apply(active, KeywordTotal(expected)), "keywordExpectedTotal") == Number(expected)
    ensures Lookup(Apply(active, FanoutFound(videos)), "fanoutDiscovered") == Flag(true)
    ensures Lookup(Apply(active, FanoutFound(videos)), "fanoutVideoCount") == Number(videos)
  {
    var a, b := "fanoutDiscovered", "fanoutVideoCount";
    assert |a| == 16 && a[6] == 'D' && b[6] == 'V';
  }

  function PhaseOf(checkpoint: Checkpoint, phase: string): Option<Phase> {
    var all := Lookup(checkpoint, "phaseProgress");
    if all.Phases? && phase in all.phases then Some(all.phases[phase]) else None
  }

  /** Progress is read back for its own phase, negative numbers as zero, and no other phase loses its own. */
  lemma ProgressIsReadBack(active: Checkpoint, phase: string, completed: int, total: Option<int>, other: string)
    ensures var p := PhaseOf(Apply(active, Progress(phase, completed, total)), phase);
            && p.Some? && p.value.completed == (if completed < 0 then 0 else completed)
            && (total.None? <==> p.value.total.None?)
            && (total.Some? ==> p.value.total == Some(if total.value < 0 then 0 else total.value))
    ensures other != phase ==> PhaseOf(Apply(active, Progress(phase, completed, total)), other) == PhaseOf(active, other)
  {
  }

  /** A new cursor carries over the lasting keys and drops whatever else was there. */
  lemma CursorKeepsLastingKeys(active: Checkpoint, stage: string, scope: string, token: Option<nat>, batch: int, key: string)
    requires key !in {"stage", "scopeKey", "pageToken", "batchCursor"}
    ensures Lookup(CheckpointPayload(active, stage, scope, token, batch), key)
            == if key in {"jobKind", "youtubeVideoId", "fanoutDiscovered", "fanoutVideoCount", "phaseProgress",
                          "quotaRetryAttempt", "keywordExpectedTotal"} then Lookup(active, key) else Null
  {
  }

  /** Progress, quota, fan-out and total rewrites never move a page cursor. */
  lemma ProgressKeepsCursor(active: Checkpoint, rewrite: Rewrite, stage: string, scope: string)
    requires !rewrite.Cursor?
    ensures ResumeCursor(Apply(active, rewrite), stage, scope) == ResumeCursor(active, stage, scope)
  {
    var a, b, c, d := "stage", "scopeKey", "pageToken", "batchCursor";
    assert a[0] == 's' && b[0] == 's' && c[0] == 'p' && d[0] == 'b';
    assert a[1] == 't' && b[1] == 'c' && c[1] == 'a';
    var e, f, g, h, i := "phaseProgress", "quotaRetryAttempt", "fanoutDiscovered", "fanoutVideoCount", "keywordExpectedTotal";
    assert e[0] == 'p' && e[1] == 'h' && f[0] == 'q' && g[0] == 'f' && h[0] == 'f' && i[0] == 'k';
  }
}
