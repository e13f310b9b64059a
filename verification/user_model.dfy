/**
 * The per-user progress ledger embedded in the User document
 * (backend/src/models/User.js): the progress sub-documents keyed by content
 * id, the learning statistics recomputed from them, and the capped history
 * of AI interactions.
 *
 * A `UserDocument` stands for the persisted document. The source mutates the
 * in-memory document and then saves it; when the save is rejected by schema
 * validation the stored document is left as it was, so here a rejected update
 * leaves every field unchanged.
 */
module UserModel {
  import opened Common

  // Status values of the progress sub-schema (underscore spelling).
  const NotStarted: string := "not_started"
  const InProgress: string := "in_progress"
  const Completed: string := "completed"

  predicate ValidStatus(s: string) {
    s == NotStarted || s == InProgress || s == Completed
  }

  /** Opaque data stored with an entry: client JSON, or an AI generation record. */
  datatype Payload =
    | ClientData(json: string)
    | AISession(topic: string, subject: Option<string>, difficulty: Option<string>, generatedAt: Time)

  datatype ProgressEntry = ProgressEntry(
    contentId: string,
    status: string,
    completionPercentage: int,
    score: int,
    timeSpent: int,
    lastAccessedAt: Time,
    completedAt: Option<Time>,
    aiResourcesGenerated: bool,
    aiResourcesData: Option<Payload>)

  /**
   * The object handed to `updateProgress`. Each field is `Some` when the key
   * is present. `aiResourcesData` may be present with the value `undefined`,
   * hence the nested option: `Some(None)` clears the stored value.
   */
  datatype ProgressPatch = ProgressPatch(
    status: Option<string>,
    completionPercentage: Option<int>,
    score: Option<int>,
    timeSpent: Option<int>,
    completedAt: Option<Time>,
    aiResourcesGenerated: Option<bool>,
    aiResourcesData: Option<Option<Payload>>)

  /** What schema validation demands of an entry on save. */
  predicate ValidEntry(e: ProgressEntry) {
    e.contentId != "" && ValidStatus(e.status) && 0 <= e.completionPercentage <= 100
  }

  predicate UniqueKeys(entries: seq<ProgressEntry>) {
    forall i, j :: 0 <= i < j < |entries| ==> entries[i].contentId != entries[j].contentId
  }

  predicate AllValid(entries: seq<ProgressEntry>) {
    forall i :: 0 <= i < |entries| ==> ValidEntry(entries[i])
  }

  /** A fresh sub-document with the schema defaults. */
  function NewEntry(contentId: string, now: Time): ProgressEntry {
    ProgressEntry(contentId, NotStarted, 0, 0, 0, now, None, false, None)
  }

  /** `Object.assign(entry, patch)`: every key of the patch replaces the stored value. */
  function Assign(e: ProgressEntry, p: ProgressPatch): ProgressEntry {
    e.(status := p.status.GetOr(e.status),
       completionPercentage := p.completionPercentage.GetOr(e.completionPercentage),
       score := p.score.GetOr(e.score),
       timeSpent := p.timeSpent.GetOr(e.timeSpent),
       completedAt := if p.completedAt.Some? then p.completedAt else e.completedAt,
       aiResourcesGenerated := p.aiResourcesGenerated.GetOr(e.aiResourcesGenerated),
       aiResourcesData := p.aiResourcesData.GetOr(e.aiResourcesData))
  }

  /** The `findIndex` predicate: a present, equal content id. */
  predicate Matches(e: ProgressEntry, contentId: string) {
    e.contentId != "" && e.contentId == contentId
  }

  /** `progress.findIndex(...)`: the first matching position, or -1. */
  function IndexOf(entries: seq<ProgressEntry>, contentId: string): (i: int)
    ensures -1 <= i < |entries|
    ensures i >= 0 ==> Matches(entries[i], contentId)
    ensures forall j :: 0 <= j < |entries| && (i < 0 || j < i) ==> !Matches(entries[j], contentId)
  {
    if entries == [] then -1
    else if Matches(entries[0], contentId) then 0
    else
      var i := IndexOf(entries[1..], contentId);
      if i < 0 then -1 else i + 1
  }

  /** The entry `updateProgress` writes: the existing one or a new one, patched and stamped. */
  function Touched(entries: seq<ProgressEntry>, contentId: string, p: ProgressPatch, now: Time): ProgressEntry {
    var i := IndexOf(entries, contentId);
    var base := if i >= 0 then entries[i] else NewEntry(contentId, now);
    Assign(base, p).(lastAccessedAt := now)
  }

  /**
   * The progress list after `updateProgress(contentId, patch)`: the matching
   * entry is overwritten in place, or a new entry is appended at the end.
   */
  function Upsert(entries: seq<ProgressEntry>, contentId: string, p: ProgressPatch, now: Time): (r: seq<ProgressEntry>)
    // found: same length, only the matching position changes
    ensures IndexOf(entries, contentId) >= 0 ==>
      |r| == |entries| &&
      forall j :: 0 <= j < |entries| && j != IndexOf(entries, contentId) ==> r[j] == entries[j]
    // not found: the old entries are kept in order and one entry is appended
    ensures IndexOf(entries, contentId) < 0 ==>
      |r| == |entries| + 1 && r[..|entries|] == entries && r[|entries|].contentId == contentId
    // the touched entry is stamped with the call's time on both paths
    ensures var k := if IndexOf(entries, contentId) >= 0 then IndexOf(entries, contentId) else |entries|;
      k < |r| && r[k] == Touched(entries, contentId, p, now) && r[k].lastAccessedAt == now
  {
    var i := IndexOf(entries, contentId);
    if i >= 0 then entries[i := Touched(entries, contentId, p, now)]
    else entries + [Touched(entries, contentId, p, now)]
  }

  /**
   * The merge is an overwrite: every key of the patch replaces the stored
   * value (time spent and completion time included), and absent keys keep
   * the old value, or the schema default for a new entry.
   */
  lemma {:induction false} TouchedOverwrites(entries: seq<ProgressEntry>, contentId: string, p: ProgressPatch, now: Time)
    ensures var t := Touched(entries, contentId, p, now);
      var i := IndexOf(entries, contentId);
      var base := if i >= 0 then entries[i] else NewEntry(contentId, now);
      && t.contentId == base.contentId
      && (p.status.Some? ==> t.status == p.status.value)
      && (p.status.None? ==> t.status == base.status)
      && (p.completionPercentage.Some? ==> t.completionPercentage == p.completionPercentage.value)
      && (p.completionPercentage.None? ==> t.completionPercentage == base.completionPercentage)
      && (p.score.Some? ==> t.score == p.score.value)
      && (p.score.None? ==> t.score == base.score)
      && (p.timeSpent.Some? ==> t.timeSpent == p.timeSpent.value)
      && (p.timeSpent.None? ==> t.timeSpent == base.timeSpent)
      && (p.completedAt.Some? ==> t.completedAt == p.completedAt)
      && (p.completedAt.None? ==> t.completedAt == base.completedAt)
      && (i < 0 ==> base.status == NotStarted && base.completionPercentage == 0 && base.score == 0 && base.timeSpent == 0)
  {
  }

  /** Time spent is replaced, not accumulated: a second update leaves only its own value. */
  lemma {:induction false} TimeSpentNotAccumulated(entries: seq<ProgressEntry>, contentId: string,
                                                   p1: ProgressPatch, p2: ProgressPatch, t1: Time, t2: Time)
    requires contentId != ""
    requires p1.timeSpent.Some? && p2.timeSpent.Some?
    ensures var r := Upsert(Upsert(entries, contentId, p1, t1), contentId, p2, t2);
      var k := IndexOf(r, contentId);
      k >= 0 && r[k].timeSpent == p2.timeSpent.value
  {
    var r1 := Upsert(entries, contentId, p1, t1);
    FoundAfterUpsert(entries, contentId, p1, t1);
    var i := IndexOf(r1, contentId);
    var r := Upsert(r1, contentId, p2, t2);
    FoundAfterUpsert(r1, contentId, p2, t2);
    assert IndexOf(r, contentId) == i by {
      assert Matches(r[i], contentId);
    }
  }

  /** After an upsert with a non-empty id, the id is found, at the touched position. */
  lemma FoundAfterUpsert(entries: seq<ProgressEntry>, contentId: string, p: ProgressPatch, now: Time)
    requires contentId != ""
    ensures var r := Upsert(entries, contentId, p, now);
      IndexOf(r, contentId) == (if IndexOf(entries, contentId) >= 0 then IndexOf(entries, contentId) else |entries|)
  {
    var r := Upsert(entries, contentId, p, now);
    var k := if IndexOf(entries, contentId) >= 0 then IndexOf(entries, contentId) else |entries|;
    assert Matches(r[k], contentId);
    forall j | 0 <= j < k ensures !Matches(r[j], contentId) {
      assert r[j] == entries[j];
    }
  }

  /** Upsert keeps one entry per content id, and the id it was called with is held by exactly one entry. */
  lemma UpsertKeepsKeysUnique(entries: seq<ProgressEntry>, contentId: string, p: ProgressPatch, now: Time)
    requires UniqueKeys(entries) && AllValid(entries)
    requires contentId != ""
    ensures UniqueKeys(Upsert(entries, contentId, p, now))
    ensures var r := Upsert(entries, contentId, p, now);
      forall j :: 0 <= j < |r| && r[j].contentId == contentId ==> j == IndexOf(r, contentId)
  {
    var r := Upsert(entries, contentId, p, now);
    var i := IndexOf(entries, contentId);
    FoundAfterUpsert(entries, contentId, p, now);
    if i >= 0 {
      forall a, b | 0 <= a < b < |r| ensures r[a].contentId != r[b].contentId {
        if a != i && b != i {
          assert r[a] == entries[a] && r[b] == entries[b];
        } else if a == i {
          assert r[b] == entries[b];
        } else {
          assert r[a] == entries[a];
        }
      }
    } else {
      forall a, b | 0 <= a < b < |r| ensures r[a].contentId != r[b].contentId {
        if b < |entries| {
          assert r[a] == entries[a] && r[b] == entries[b];
        } else {
          assert r[a] == entries[a];
          assert ValidEntry(entries[a]) && !Matches(entries[a], contentId);
        }
      }
    }
  }

  /** A rejected save leaves old entries valid; an accepted one keeps all entries valid. */
  lemma UpsertKeepsValid(entries: seq<ProgressEntry>, contentId: string, p: ProgressPatch, now: Time)
    requires AllValid(entries)
    requires ValidEntry(Touched(entries, contentId, p, now))
    ensures AllValid(Upsert(entries, contentId, p, now))
  {
  }

  // ---------------------------------------------------------------------
  // Learning statistics

  datatype LearningStats = LearningStats(
    totalXP: int,
    currentStreak: int,
    longestStreak: int,
    modulesCompleted: int,
    totalStudyTime: int,
    averageScore: real,
    lastActiveDate: Time)

  function DefaultStats(now: Time): LearningStats {
    LearningStats(0, 0, 0, 0, 0, 0.0, now)
  }

  /** Entries whose status is `completed`. */
  function CompletedCount(entries: seq<ProgressEntry>): (n: nat)
    ensures n <= |entries|
  {
    if entries == [] then 0
    else CompletedCount(entries[..|entries| - 1]) + (if entries[|entries| - 1].status == Completed then 1 else 0)
  }

  /** Sum of scores (a missing score counts as 0). */
  function ScoreSum(entries: seq<ProgressEntry>): int {
    if entries == [] then 0 else ScoreSum(entries[..|entries| - 1]) + entries[|entries| - 1].score
  }

  /** Sum of time spent over all entries, whatever their status. */
  function TimeSum(entries: seq<ProgressEntry>): int {
    if entries == [] then 0 else TimeSum(entries[..|entries| - 1]) + entries[|entries| - 1].timeSpent
  }

  /**
   * `updateLearningStats`: completed count, score sum as XP, time sum and
   * mean score; the streak fields are left as they were.
   */
  function Recompute(s: LearningStats, entries: seq<ProgressEntry>, now: Time): LearningStats {
    s.(modulesCompleted := CompletedCount(entries),
       totalXP := ScoreSum(entries),
       totalStudyTime := TimeSum(entries),
       averageScore := if |entries| > 0 then ScoreSum(entries) as real / |entries| as real else 0.0,
       lastActiveDate := now)
  }

  /** The loop of `updateLearningStats`, one pass over the entries. */
  method ComputeStats(s: LearningStats, entries: seq<ProgressEntry>, now: Time) returns (r: LearningStats)
    ensures r == Recompute(s, entries, now)
    ensures r.modulesCompleted <= |entries|
    ensures r.averageScore * |entries| as real == r.totalXP as real
  {
    var completed, totalScore, totalTime := 0, 0, 0;
    var k := 0;
    while k < |entries|
      invariant 0 <= k <= |entries|
      invariant completed == CompletedCount(entries[..k])
      invariant totalScore == ScoreSum(entries[..k])
      invariant totalTime == TimeSum(entries[..k])
    {
      assert entries[..k + 1][..k] == entries[..k];
      if entries[k].status == Completed {
        completed := completed + 1;
      }
      totalScore := totalScore + entries[k].score;
      totalTime := totalTime + entries[k].timeSpent;
      k := k + 1;
    }
    assert entries[..k] == entries;
    var average := if |entries| > 0 then totalScore as real / |entries| as real else 0.0;
    r := s.(modulesCompleted := completed, totalXP := totalScore, totalStudyTime := totalTime,
            averageScore := average, lastActiveDate := now);
  }

  /** Two lists that agree on status and score position by position have the same count and score sum. */
  lemma {:induction false} SameStatusAndScore(a: seq<ProgressEntry>, b: seq<ProgressEntry>)
    requires |a| == |b|
    requires forall j :: 0 <= j < |a| ==> a[j].status == b[j].status && a[j].score == b[j].score
    ensures CompletedCount(a) == CompletedCount(b) && ScoreSum(a) == ScoreSum(b)
  {
    if a != [] {
      SameStatusAndScore(a[..|a| - 1], b[..|b| - 1]);
    }
  }

  /** Appending one entry adds its share to every aggregate. */
  lemma AppendAggregates(entries: seq<ProgressEntry>, e: ProgressEntry)
    ensures CompletedCount(entries + [e]) == CompletedCount(entries) + (if e.status == Completed then 1 else 0)
    ensures ScoreSum(entries + [e]) == ScoreSum(entries) + e.score
    ensures TimeSum(entries + [e]) == TimeSum(entries) + e.timeSpent
  {
    assert (entries + [e])[..|entries|] == entries;
  }

  function CompletedShare(e: ProgressEntry): int {
    if e.status == Completed then 1 else 0
  }

  /** Overwriting one entry moves each aggregate by the difference between the new and the old entry. */
  lemma {:induction false} ReplaceAggregates(entries: seq<ProgressEntry>, i: int, e: ProgressEntry)
    requires 0 <= i < |entries|
    ensures CompletedCount(entries[i := e]) == CompletedCount(entries) - CompletedShare(entries[i]) + CompletedShare(e)
    ensures ScoreSum(entries[i := e]) == ScoreSum(entries) - entries[i].score + e.score
    ensures TimeSum(entries[i := e]) == TimeSum(entries) - entries[i].timeSpent + e.timeSpent
  {
    var r := entries[i := e];
    var n := |entries|;
    if i == n - 1 {
      assert r[..n - 1] == entries[..n - 1];
    } else {
      ReplaceAggregates(entries[..n - 1], i, e);
      assert r[..n - 1] == entries[..n - 1][i := e];
    }
  }

  /**
   * The aggregates after an upsert: the touched entry's share replaces the
   * share of the entry it overwrote (nothing, when it was appended).
   */
  lemma UpsertAggregates(entries: seq<ProgressEntry>, contentId: string, p: ProgressPatch, now: Time)
    ensures var i := IndexOf(entries, contentId);
      var t := Touched(entries, contentId, p, now);
      var r := Upsert(entries, contentId, p, now);
      && CompletedCount(r) == CompletedCount(entries) - (if i >= 0 then CompletedShare(entries[i]) else 0) + CompletedShare(t)
      && ScoreSum(r) == ScoreSum(entries) - (if i >= 0 then entries[i].score else 0) + t.score
      && TimeSum(r) == TimeSum(entries) - (if i >= 0 then entries[i].timeSpent else 0) + t.timeSpent
  {
    var i := IndexOf(entries, contentId);
    var t := Touched(entries, contentId, p, now);
    if i >= 0 {
      ReplaceAggregates(entries, i, t);
    } else {
      AppendAggregates(entries, t);
    }
  }

  /**
   * Re-applying patches that set the same status and score to the entry the
   * first one shaped leaves the completed count and the XP total unchanged.
   */
  lemma {:induction false} ReapplyKeepsCountAndXP(entries: seq<ProgressEntry>, contentId: string,
                                                  p1: ProgressPatch, p2: ProgressPatch, t1: Time, t2: Time)
    requires contentId != ""
    requires p1.status.Some? && p1.score.Some?
    requires p2.status == p1.status && p2.score == p1.score
    ensures var r1 := Upsert(entries, contentId, p1, t1);
      var r2 := Upsert(r1, contentId, p2, t2);
      CompletedCount(r2) == CompletedCount(r1) && ScoreSum(r2) == ScoreSum(r1)
  {
    var r1 := Upsert(entries, contentId, p1, t1);
    var r2 := Upsert(r1, contentId, p2, t2);
    FoundAfterUpsert(entries, contentId, p1, t1);
    SameStatusAndScore(r1, r2);
  }

  // ---------------------------------------------------------------------
  // AI interaction history

  const MaxInteractions: nat := 50

  datatype AIInteraction = AIInteraction(
    topic: Option<string>,
    subject: Option<string>,
    difficulty: Option<string>,
    resourcesGenerated: Time,
    userRating: Option<int>,
    feedback: string)

  datatype InteractionInput = InteractionInput(
    topic: Option<string>,
    subject: Option<string>,
    difficulty: Option<string>,
    userRating: Option<int>,
    feedback: Option<string>)

  /** The record `addAIInteraction` pushes: rating `|| null`, feedback `|| ''`. */
  function NewInteraction(d: InteractionInput, now: Time): (r: AIInteraction)
    ensures r.userRating.Some? <==> d.userRating.Some? && d.userRating.value != 0
    ensures r.userRating.Some? ==> r.userRating == d.userRating
    ensures d.feedback.None? ==> r.feedback == ""
    ensures d.feedback.Some? ==> r.feedback == d.feedback.value
    ensures r.resourcesGenerated == now
    ensures r.topic == d.topic && r.subject == d.subject && r.difficulty == d.difficulty
  {
    AIInteraction(d.topic, d.subject, d.difficulty, now,
                  if d.userRating.Some? && d.userRating.value != 0 then d.userRating else None,
                  d.feedback.GetOr(""))
  }

  // ---------------------------------------------------------------------
  // The document

  class UserDocument {
    var progress: seq<ProgressEntry>
    var learningStats: LearningStats
    var aiInteractions: seq<AIInteraction>

    ghost predicate Valid()
      reads this
    {
      UniqueKeys(progress) && AllValid(progress) && |aiInteractions| <= MaxInteractions
    }

    /** A new user: no progress, default statistics, no interactions. */
    constructor (now: Time)
      ensures Valid()
      ensures progress == [] && learningStats == DefaultStats(now) && aiInteractions == []
    {
      progress := [];
      learningStats := DefaultStats(now);
      aiInteractions := [];
    }

    /** The `findIndex` loop over the progress list. */
    method FindProgressIndex(contentId: string) returns (i: int)
      ensures i == IndexOf(progress, contentId)
    {
      var k := 0;
      while k < |progress|
        invariant 0 <= k <= |progress|
        invariant forall j :: 0 <= j < k ==> !Matches(progress[j], contentId)
      {
        if Matches(progress[k], contentId) {
          IndexOfFirst(progress, contentId, k);
          return k;
        }
        k := k + 1;
      }
      IndexOfNone(progress, contentId);
      return -1;
    }

    /**
     * `updateProgress(contentId, patch)`: find or append the entry, merge the
     * patch, stamp it, recompute the statistics and save. A save that fails
     * validation leaves the document as it was.
     */
    method UpdateProgress(contentId: string, patch: ProgressPatch, now: Time) returns (saved: bool)
      requires Valid()
      modifies this
      ensures Valid()
      ensures saved == ValidEntry(Touched(old(progress), contentId, patch, now))
      ensures saved ==> progress == Upsert(old(progress), contentId, patch, now)
      ensures saved ==> learningStats == Recompute(old(learningStats), progress, now)
      ensures !saved ==> progress == old(progress) && learningStats == old(learningStats)
      ensures aiInteractions == old(aiInteractions)
    {
      var i := FindProgressIndex(contentId);
      var entry: ProgressEntry;
      if i >= 0 {
        entry := Assign(progress[i], patch).(lastAccessedAt := now);
      } else {
        entry := Assign(NewEntry(contentId, now), patch).(lastAccessedAt := now);
      }
      if !ValidEntry(entry) {
        return false;
      }
      UpsertKeepsKeysUnique(progress, contentId, patch, now);
      UpsertKeepsValid(progress, contentId, patch, now);
      if i >= 0 {
        progress := progress[i := entry];
      } else {
        progress := progress + [entry];
      }
      UpdateLearningStats(now);
      return true;
    }

    /** `updateLearningStats`: recompute the derived statistics from the entries. */
    method UpdateLearningStats(now: Time)
      modifies this`learningStats
      ensures learningStats == Recompute(old(learningStats), progress, now)
    {
      learningStats := ComputeStats(learningStats, progress, now);
    }

    /** `addAIInteraction`: append one record, then keep only the latest fifty. */
    method AddAIInteraction(d: InteractionInput, now: Time)
      requires Valid()
      modifies this`aiInteractions
      ensures Valid()
      ensures aiInteractions == LastN(old(aiInteractions) + [NewInteraction(d, now)], MaxInteractions)
      ensures aiInteractions[|aiInteractions| - 1] == NewInteraction(d, now)
    {
      aiInteractions := aiInteractions + [NewInteraction(d, now)];
      if |aiInteractions| > MaxInteractions {
        aiInteractions := aiInteractions[|aiInteractions| - MaxInteractions..];
      }
    }
  }

  lemma IndexOfFirst(entries: seq<ProgressEntry>, contentId: string, k: int)
    requires 0 <= k < |entries| && Matches(entries[k], contentId)
    requires forall j :: 0 <= j < k ==> !Matches(entries[j], contentId)
    ensures IndexOf(entries, contentId) == k
  {
  }

  lemma IndexOfNone(entries: seq<ProgressEntry>, contentId: string)
    requires forall j :: 0 <= j < |entries| ==> !Matches(entries[j], contentId)
    ensures IndexOf(entries, contentId) == -1
  {
  }
}
