/**
 * The progress API (backend/src/routes/progress.js): POST /update,
 * GET /user/:userId, POST /ai-interaction and POST /complete, over the
 * User documents of `UserModel`.
 *
 * The user collection is a map from user id to document. A request body is
 * a record of optional fields; a handler answers with a `Response`.
 */
module ProgressRoutes {
  import opened Common
  import opened UserModel

  datatype UpdateRequest = UpdateRequest(
    userId: Option<string>,
    contentId: Option<string>,
    status: Option<string>,
    completionPercentage: Option<int>,
    score: Option<int>,
    timeSpent: Option<int>,
    aiResourcesData: Option<string>)

  datatype CompleteRequest = CompleteRequest(
    userId: Option<string>,
    contentId: Option<string>,
    finalScore: Option<int>,
    totalTimeSpent: Option<int>)

  datatype InteractionRequest = InteractionRequest(
    userId: Option<string>,
    topic: Option<string>,
    subject: Option<string>,
    difficulty: Option<string>,
    userRating: Option<int>,
    feedback: Option<string>)

  /** What GET /user/:userId returns. */
  datatype ProgressView = ProgressView(
    progress: seq<ProgressEntry>,
    learningStats: LearningStats,
    aiInteractions: seq<AIInteraction>,
    totalXP: int)

  datatype Response =
    | BadRequest(error: string)
    | NotFound
    | ServerError
    | ProgressSaved(progress: seq<ProgressEntry>, learningStats: LearningStats)
    | ContentCompleted(xpEarned: int, progress: seq<ProgressEntry>, learningStats: LearningStats)
    | InteractionTracked
    | ProgressData(view: ProgressView)

  const IdsRequired: string := "userId and contentId are required"
  const UserIdRequired: string := "userId is required"

  // Defaults the /complete handler substitutes for a missing or zero value.
  const DefaultFinalScore: int := 25
  const DefaultTimeSpent: int := 30
  const RecentInteractions: nat := 10

  /** The patch POST /update hands to `updateProgress`: every field is present. */
  function UpdatePatch(req: UpdateRequest): (p: ProgressPatch)
    ensures p.status.Some? && p.completionPercentage.Some? && p.score.Some? && p.timeSpent.Some?
    ensures p.status == Some(OrText(req.status, InProgress))
    ensures p.completionPercentage == Some(OrZero(req.completionPercentage))
    ensures p.score == Some(OrZero(req.score)) && p.timeSpent == Some(OrZero(req.timeSpent))
    ensures p.completedAt.None?
    ensures p.aiResourcesGenerated == Some(Truthy(req.aiResourcesData))
    ensures p.aiResourcesData.Some? && (p.aiResourcesData.value.Some? <==> req.aiResourcesData.Some?)
    ensures req.aiResourcesData.Some? ==> p.aiResourcesData == Some(Some(ClientData(req.aiResourcesData.value)))
  {
    ProgressPatch(
      Some(OrText(req.status, InProgress)),
      Some(OrZero(req.completionPercentage)),
      Some(OrZero(req.score)),
      Some(OrZero(req.timeSpent)),
      None,
      Some(Truthy(req.aiResourcesData)),
      Some(if req.aiResourcesData.Some? then Some(ClientData(req.aiResourcesData.value)) else None))
  }

  /** The patch POST /complete hands to `updateProgress`, stamped with the request time. */
  function CompletePatch(req: CompleteRequest, now: Time): (p: ProgressPatch)
    ensures p.status == Some(Completed) && p.completionPercentage == Some(100)
    ensures p.score == Some(OrDefault(req.finalScore, DefaultFinalScore))
    ensures p.timeSpent == Some(OrDefault(req.totalTimeSpent, DefaultTimeSpent))
    ensures p.completedAt == Some(now)
    ensures p.aiResourcesGenerated.None? && p.aiResourcesData.None?
  {
    ProgressPatch(
      Some(Completed), Some(100),
      Some(OrDefault(req.finalScore, DefaultFinalScore)),
      Some(OrDefault(req.totalTimeSpent, DefaultTimeSpent)),
      Some(now), None, None)
  }

  /** The body of GET /user/:userId: the ledger, the last ten interactions and the XP total. */
  function View(progress: seq<ProgressEntry>, stats: LearningStats, ai: seq<AIInteraction>): (v: ProgressView)
    ensures v.progress == progress && v.learningStats == stats
    ensures |v.aiInteractions| == if |ai| <= RecentInteractions then |ai| else RecentInteractions
    ensures v.aiInteractions == ai[|ai| - |v.aiInteractions|..]
    ensures v.totalXP == stats.totalXP
  {
    ProgressView(progress, stats, LastN(ai, RecentInteractions), OrZero(Some(stats.totalXP)))
  }

  /**
   * POST /update is saved exactly when the requested status is omitted or one
   * of the three schema values and the requested percentage lies in 0..100.
   */
  lemma UpdateSavesIff(entries: seq<ProgressEntry>, req: UpdateRequest, now: Time)
    requires Truthy(req.contentId)
    ensures ValidEntry(Touched(entries, req.contentId.value, UpdatePatch(req), now)) <==>
      (!Truthy(req.status) || ValidStatus(req.status.value)) &&
      0 <= OrZero(req.completionPercentage) <= 100
  {
  }

  /**
   * Every field POST /update omits is reset rather than kept: the score, the
   * time spent and the percentage become 0 and the status `in_progress`, even
   * on an entry that was completed.
   */
  lemma UpdateResetsOmittedFields(entries: seq<ProgressEntry>, req: UpdateRequest, now: Time)
    requires Truthy(req.contentId)
    requires req.status.None? && req.score.None? && req.timeSpent.None? && req.completionPercentage.None?
    ensures var t := Touched(entries, req.contentId.value, UpdatePatch(req), now);
      t.status == InProgress && t.score == 0 && t.timeSpent == 0 && t.completionPercentage == 0
  {
  }

  /**
   * Consequently an /update without a status on a completed entry lowers the
   * completed-module count by one and the XP total by that entry's score.
   */
  lemma UpdateWithoutStatusUncompletes(entries: seq<ProgressEntry>, req: UpdateRequest, now: Time)
    requires Truthy(req.contentId)
    requires req.status.None? && req.score.None?
    requires IndexOf(entries, req.contentId.value) >= 0
    requires entries[IndexOf(entries, req.contentId.value)].status == Completed
    ensures var r := Upsert(entries, req.contentId.value, UpdatePatch(req), now);
      var e := entries[IndexOf(entries, req.contentId.value)];
      CompletedCount(r) == CompletedCount(entries) - 1 &&
      ScoreSum(r) == ScoreSum(entries) - e.score
  {
    UpsertAggregates(entries, req.contentId.value, UpdatePatch(req), now);
  }

  /** POST /complete always passes validation, and the XP it reports is the score it stores. */
  lemma CompleteStoresReportedXP(entries: seq<ProgressEntry>, req: CompleteRequest, now: Time)
    requires Truthy(req.contentId)
    ensures var t := Touched(entries, req.contentId.value, CompletePatch(req, now), now);
      ValidEntry(t) && t.status == Completed && t.completionPercentage == 100 &&
      t.score == OrDefault(req.finalScore, DefaultFinalScore) && t.completedAt == Some(now)
  {
  }

  /**
   * The XP total after /complete grows by the reported XP minus the score the
   * entry held before (nothing when the entry is new), and the completed
   * count grows by one only when the entry was not completed yet.
   */
  lemma CompleteXPDelta(entries: seq<ProgressEntry>, req: CompleteRequest, now: Time)
    requires Truthy(req.contentId)
    ensures var c := req.contentId.value;
      var i := IndexOf(entries, c);
      var r := Upsert(entries, c, CompletePatch(req, now), now);
      && ScoreSum(r) == ScoreSum(entries) + OrDefault(req.finalScore, DefaultFinalScore) - (if i >= 0 then entries[i].score else 0)
      && CompletedCount(r) == CompletedCount(entries) + (if i >= 0 && entries[i].status == Completed then 0 else 1)
  {
    UpsertAggregates(entries, req.contentId.value, CompletePatch(req, now), now);
  }

  /** Completing the same content twice with the same final score changes neither count nor XP the second time. */
  lemma CompleteTwiceIsStable(entries: seq<ProgressEntry>, req: CompleteRequest, t1: Time, t2: Time)
    requires Truthy(req.contentId)
    ensures var c := req.contentId.value;
      var r1 := Upsert(entries, c, CompletePatch(req, t1), t1);
      var r2 := Upsert(r1, c, CompletePatch(req, t2), t2);
      CompletedCount(r2) == CompletedCount(r1) && ScoreSum(r2) == ScoreSum(r1)
  {
    ReapplyKeepsCountAndXP(entries, req.contentId.value, CompletePatch(req, t1), CompletePatch(req, t2), t1, t2);
  }

  // ---------------------------------------------------------------------
  // Handlers

  ghost predicate UsersValid(users: map<string, UserDocument>)
    reads users.Values
  {
    forall id :: id in users ==> users[id].Valid()
  }

  /** POST /update. */
  method PostUpdate(users: map<string, UserDocument>, req: UpdateRequest, now: Time) returns (res: Response)
    requires UsersValid(users)
    modifies users.Values
    ensures UsersValid(users)
    ensures !Truthy(req.userId) || !Truthy(req.contentId) ==> res == BadRequest(IdsRequired)
    ensures Truthy(req.userId) && Truthy(req.contentId) && req.userId.value !in users ==> res == NotFound
    ensures res.BadRequest? || res.NotFound? ==> forall id :: id in users ==> unchanged(users[id])
    ensures Truthy(req.userId) && Truthy(req.contentId) && req.userId.value in users ==>
      var u := users[req.userId.value];
      var c := req.contentId.value;
      var saves := ValidEntry(Touched(old(u.progress), c, UpdatePatch(req), now));
      && (saves ==> u.progress == Upsert(old(u.progress), c, UpdatePatch(req), now) &&
                    u.learningStats == Recompute(old(u.learningStats), u.progress, now) &&
                    res == ProgressSaved(u.progress, u.learningStats))
      && (!saves ==> res == ServerError && u.progress == old(u.progress) && u.learningStats == old(u.learningStats))
      && u.aiInteractions == old(u.aiInteractions)
      && forall id :: id in users && users[id] != u ==> unchanged(users[id])
  {
    if !Truthy(req.userId) || !Truthy(req.contentId) {
      return BadRequest(IdsRequired);
    }
    if req.userId.value !in users {
      return NotFound;
    }
    var u := users[req.userId.value];
    var saved := u.UpdateProgress(req.contentId.value, UpdatePatch(req), now);
    if saved {
      res := ProgressSaved(u.progress, u.learningStats);
    } else {
      res := ServerError;
    }
  }

  /** POST /complete. */
  method PostComplete(users: map<string, UserDocument>, req: CompleteRequest, now: Time) returns (res: Response)
    requires UsersValid(users)
    modifies users.Values
    ensures UsersValid(users)
    ensures !Truthy(req.userId) || !Truthy(req.contentId) ==> res == BadRequest(IdsRequired)
    ensures Truthy(req.userId) && Truthy(req.contentId) && req.userId.value !in users ==> res == NotFound
    ensures res.BadRequest? || res.NotFound? ==> forall id :: id in users ==> unchanged(users[id])
    ensures Truthy(req.userId) && Truthy(req.contentId) && req.userId.value in users ==>
      var u := users[req.userId.value];
      && u.progress == Upsert(old(u.progress), req.contentId.value, CompletePatch(req, now), now)
      && u.learningStats == Recompute(old(u.learningStats), u.progress, now)
      && res == ContentCompleted(OrDefault(req.finalScore, DefaultFinalScore), u.progress, u.learningStats)
      && u.aiInteractions == old(u.aiInteractions)
      && forall id :: id in users && users[id] != u ==> unchanged(users[id])
  {
    if !Truthy(req.userId) || !Truthy(req.contentId) {
      return BadRequest(IdsRequired);
    }
    if req.userId.value !in users {
      return NotFound;
    }
    var u := users[req.userId.value];
    CompleteStoresReportedXP(u.progress, req, now);
    var saved := u.UpdateProgress(req.contentId.value, CompletePatch(req, now), now);
    assert saved;
    res := ContentCompleted(OrDefault(req.finalScore, DefaultFinalScore), u.progress, u.learningStats);
  }

  /** POST /ai-interaction. */
  method PostInteraction(users: map<string, UserDocument>, req: InteractionRequest, now: Time) returns (res: Response)
    requires UsersValid(users)
    modifies users.Values
    ensures UsersValid(users)
    ensures !Truthy(req.userId) ==> res == BadRequest(UserIdRequired)
    ensures Truthy(req.userId) && req.userId.value !in users ==> res == NotFound
    ensures res.BadRequest? || res.NotFound? ==> forall id :: id in users ==> unchanged(users[id])
    ensures Truthy(req.userId) && req.userId.value in users ==>
      var u := users[req.userId.value];
      var d := InteractionInput(req.topic, req.subject, req.difficulty, req.userRating, req.feedback);
      && u.aiInteractions == LastN(old(u.aiInteractions) + [NewInteraction(d, now)], MaxInteractions)
      && u.progress == old(u.progress) && u.learningStats == old(u.learningStats)
      && res == InteractionTracked
      && forall id :: id in users && users[id] != u ==> unchanged(users[id])
  {
    if !Truthy(req.userId) {
      return BadRequest(UserIdRequired);
    }
    if req.userId.value !in users {
      return NotFound;
    }
    var u := users[req.userId.value];
    u.AddAIInteraction(InteractionInput(req.topic, req.subject, req.difficulty, req.userRating, req.feedback), now);
    res := InteractionTracked;
  }

  /** GET /user/:userId: reads only. */
  method GetUserProgress(users: map<string, UserDocument>, userId: string) returns (res: Response)
    ensures userId !in users ==> res == NotFound
    ensures userId in users ==>
      var u := users[userId];
      res == ProgressData(View(u.progress, u.learningStats, u.aiInteractions))
  {
    if userId !in users {
      return NotFound;
    }
    var u := users[userId];
    res := ProgressData(View(u.progress, u.learningStats, u.aiInteractions));
  }
}
