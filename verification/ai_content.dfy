/**
 * The AI study-resource route (backend/src/routes/aiContent.js): request
 * validation, the metadata defaults of the generated package, the fallback
 * package of the error path, and `saveUserProgressSafely`, which records
 * one generation in the user's progress ledger and reports success as a
 * boolean instead of throwing.
 *
 * The generated texts themselves (template strings) are not modelled; only
 * the fields that carry decisions are.
 */
module AIContent {
  import opened Common
  import opened UserModel

  /** A request-body value: absent, a string, or some other JSON value (with its truthiness). */
  datatype Field = Absent | Text(s: string) | NonText(truthy: bool)

  predicate FieldTruthy(f: Field) {
    match f
    case Absent => false
    case Text(s) => s != ""
    case NonText(t) => t
  }

  /** `${x}` of an optional string: an absent value appears as `undefined`. */
  function Interpolate(x: Option<string>): (r: string)
    ensures x.Some? ==> r == x.value
    ensures x.None? ==> r == "undefined"
  {
    if x.Some? then x.value else "undefined"
  }

  datatype Request = Request(
    topic: Field,
    subject: Option<string>,
    grade: Option<string>,
    stream: Option<string>,
    difficulty: Option<string>,
    userId: Field)

  /** The metadata of a generated package. */
  datatype Metadata = Metadata(
    topic: string, subject: string, difficulty: string, grade: string, stream: string,
    isFallback: bool, targetAudience: string)

  /** The metadata of the fallback package; its topic is whatever truthy value the request carried. */
  datatype FallbackMetadata = FallbackMetadata(topic: Field, subject: string, difficulty: string, isFallback: bool)

  datatype Response =
    | BadRequest                                          // 400, success false, nothing generated
    | Generated(metadata: Metadata, saveAttempted: bool)  // 200 with the package
    | Failed(fallback: FallbackMetadata)                  // 500 with the fallback package

  /** The package metadata: the request's values, or the documented defaults for missing or empty ones. */
  function MetadataOf(topic: string, req: Request): (m: Metadata)
    ensures m.topic == topic && !m.isFallback
    ensures m.subject == OrText(req.subject, "General Studies")
    ensures m.difficulty == OrText(req.difficulty, "intermediate")
    ensures m.grade == OrText(req.grade, "11th") && m.stream == OrText(req.stream, "general")
    ensures m.targetAudience == Interpolate(req.grade) + " " + Interpolate(req.stream) + " students"
  {
    Metadata(topic, OrText(req.subject, "General Studies"), OrText(req.difficulty, "intermediate"),
             OrText(req.grade, "11th"), OrText(req.stream, "general"), false,
             Interpolate(req.grade) + " " + Interpolate(req.stream) + " students")
  }

  /** `generateFallbackContent(topic || 'General Study Topic', subject || 'General Subject', difficulty || 'beginner')`. */
  function FallbackOf(req: Request): (f: FallbackMetadata)
    ensures f.isFallback
    ensures FieldTruthy(f.topic)
    ensures FieldTruthy(req.topic) ==> f.topic == req.topic
    ensures f.subject == OrText(req.subject, "General Subject") && f.difficulty == OrText(req.difficulty, "beginner")
  {
    FallbackMetadata(if FieldTruthy(req.topic) then req.topic else Text("General Study Topic"),
                     OrText(req.subject, "General Subject"), OrText(req.difficulty, "beginner"), true)
  }

  /**
   * The route: a falsy or blank topic is refused; a truthy topic that is
   * not a string fails on `trim` and the error path answers with the
   * fallback package; otherwise the package is generated, and a background
   * save is started when a user id is given and the User model is loaded.
   */
  function Generate(req: Request, modelLoaded: bool): (r: Response)
    ensures r.BadRequest? <==> !FieldTruthy(req.topic) || (req.topic.Text? && Blank(req.topic.s))
    ensures r.Failed? <==> req.topic.NonText? && req.topic.truthy
    ensures r.Failed? ==> r.fallback == FallbackOf(req)
    ensures r.Generated? ==>
      && req.topic.Text? && !Blank(req.topic.s)
      && r.metadata == MetadataOf(req.topic.s, req)
      && (r.saveAttempted <==> FieldTruthy(req.userId) && modelLoaded)
  {
    if !FieldTruthy(req.topic) then BadRequest
    else if req.topic.NonText? then Failed(FallbackOf(req))
    else if Blank(req.topic.s) then BadRequest
    else Generated(MetadataOf(req.topic.s, req), FieldTruthy(req.userId) && modelLoaded)
  }

  /** A non-empty topic of white space only is refused like a missing one. */
  lemma BlankTopicRefused(req: Request, modelLoaded: bool)
    requires req.topic.Text? && req.topic.s != []
    requires forall i :: 0 <= i < |req.topic.s| ==> IsJsSpace(req.topic.s[i])
    ensures Generate(req, modelLoaded) == BadRequest
  {
  }

  /**
   * Grade and stream are defaulted in the metadata but interpolated raw into
   * the target audience, which for a request without them reads
   * `undefined undefined students`.
   */
  lemma TargetAudienceUsesRawValues(topic: string, req: Request)
    requires req.grade.None? && req.stream.None?
    ensures MetadataOf(topic, req).grade == "11th" && MetadataOf(topic, req).stream == "general"
    ensures MetadataOf(topic, req).targetAudience == "undefined undefined students"
  {
  }

  predicate IsHex(c: char) {
    ('0' <= c <= '9') || ('a' <= c <= 'f') || ('A' <= c <= 'F')
  }

  /**
   * `userId.match(/^[0-9a-fA-F]{24}$/)`: exactly 24 hexadecimal characters.
   * A value that is not a string has no `match`, which throws and is caught.
   */
  predicate ValidObjectId(userId: Field) {
    userId.Text? && |userId.s| == 24 && forall i :: 0 <= i < |userId.s| ==> IsHex(userId.s[i])
  }

  /** The entry key of one generation: `ai-content-` and the fresh suffix. */
  function AIContentId(suffix: string): (id: string)
    ensures |id| >= 11 && id[..11] == "ai-content-"
  {
    "ai-content-" + suffix
  }

  /** The fixed progress patch of a generation: in progress, 10 percent, score 5, 1 minute, AI flag and record. */
  function AIPatch(topic: string, subject: Option<string>, difficulty: Option<string>, now: Time): (p: ProgressPatch)
    ensures p.status == Some(InProgress) && p.completionPercentage == Some(10) && p.score == Some(5)
    ensures p.timeSpent == Some(1) && p.aiResourcesGenerated == Some(true) && p.completedAt.None?
    ensures p.aiResourcesData == Some(Some(AISession(topic, subject, difficulty, now)))
  {
    ProgressPatch(Some(InProgress), Some(10), Some(5), Some(1), None, Some(true),
                  Some(Some(AISession(topic, subject, difficulty, now))))
  }

  /** The entry a generation writes always passes schema validation, so the save itself cannot be rejected. */
  lemma AIEntryValid(entries: seq<ProgressEntry>, suffix: string, topic: string, subject: Option<string>,
                     difficulty: Option<string>, now: Time)
    ensures ValidEntry(Touched(entries, AIContentId(suffix), AIPatch(topic, subject, difficulty, now), now))
  {
    var id := AIContentId(suffix);
    var i := IndexOf(entries, id);
    if i >= 0 {
      assert Matches(entries[i], id);
    }
  }

  /** A suffix no entry carries yet adds a new entry at the end rather than overwriting one. */
  lemma FreshIdAppends(entries: seq<ProgressEntry>, suffix: string, p: ProgressPatch, now: Time)
    requires forall j :: 0 <= j < |entries| ==> entries[j].contentId != AIContentId(suffix)
    ensures |Upsert(entries, AIContentId(suffix), p, now)| == |entries| + 1
    ensures Upsert(entries, AIContentId(suffix), p, now)[..|entries|] == entries
  {
  }

  /**
   * `saveUserProgressSafely`: `found` is what `findById` returned (null for
   * no such user), looked up only for a well-formed id. A malformed id or a
   * missing user is reported as `false`; otherwise the generation is
   * recorded under a fresh `ai-content-` key and `true` is returned.
   */
  method SaveUserProgressSafely(userId: Field, found: UserDocument?, suffix: string, topic: string,
                                subject: Option<string>, difficulty: Option<string>, now: Time)
    returns (ok: bool)
    requires found != null ==> found.Valid()
    modifies found
    ensures ok <==> ValidObjectId(userId) && found != null
    ensures found != null ==> found.Valid()
    ensures ok ==> found.progress == Upsert(old(found.progress), AIContentId(suffix),
                                            AIPatch(topic, subject, difficulty, now), now)
    ensures ok ==> found.learningStats == Recompute(old(found.learningStats), found.progress, now)
    ensures !ok && found != null ==> found.progress == old(found.progress) && found.learningStats == old(found.learningStats)
    ensures found != null ==> found.aiInteractions == old(found.aiInteractions)
  {
    if !ValidObjectId(userId) {
      return false;
    }
    if found == null {
      return false;
    }
    AIEntryValid(found.progress, suffix, topic, subject, difficulty, now);
    ok := found.UpdateProgress(AIContentId(suffix), AIPatch(topic, subject, difficulty, now), now);
  }
}
