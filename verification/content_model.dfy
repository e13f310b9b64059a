/**
 * The content descriptor (backend/src/models/Content.js): the enumerated
 * fields as datatypes with their stored spellings, and the construction of
 * a document from a draft, which applies the schema defaults and rejects
 * a missing required field or a value outside its enumeration.
 */
module ContentModel {
  import opened Common

  datatype Category = Academic | SoftSkills | CareerGuidance | CurrentAffairs
  datatype Grade = Tenth | Eleventh | Twelfth | College | Graduate | AllGrades
  datatype Stream = Science | Commerce | Arts | Vocational | AllStreams
  datatype ContentType = Video | Article | Quiz | Assignment
  datatype Difficulty = Beginner | Intermediate | Advanced

  function CategoryName(c: Category): string {
    match c
    case Academic => "academic"
    case SoftSkills => "soft-skills"
    case CareerGuidance => "career-guidance"
    case CurrentAffairs => "current-affairs"
  }

  /** Reads a stored category; only the four enumerated spellings are accepted. */
  function ParseCategory(s: string): (r: Option<Category>)
    ensures forall c :: r == Some(c) <==> CategoryName(c) == s
  {
    if s == "academic" then Some(Academic)
    else if s == "soft-skills" then Some(SoftSkills)
    else if s == "career-guidance" then Some(CareerGuidance)
    else if s == "current-affairs" then Some(CurrentAffairs)
    else None
  }

  function GradeName(g: Grade): string {
    match g
    case Tenth => "10th"
    case Eleventh => "11th"
    case Twelfth => "12th"
    case College => "college"
    case Graduate => "graduate"
    case AllGrades => "all"
  }

  /** Reads a stored grade; only the six enumerated spellings are accepted. */
  function ParseGrade(s: string): (r: Option<Grade>)
    ensures forall g :: r == Some(g) <==> GradeName(g) == s
  {
    if s == "10th" then Some(Tenth)
    else if s == "11th" then Some(Eleventh)
    else if s == "12th" then Some(Twelfth)
    else if s == "college" then Some(College)
    else if s == "graduate" then Some(Graduate)
    else if s == "all" then Some(AllGrades)
    else None
  }

  function StreamName(s: Stream): string {
    match s
    case Science => "science"
    case Commerce => "commerce"
    case Arts => "arts"
    case Vocational => "vocational"
    case AllStreams => "all"
  }

  /** Reads a stored stream; only the five enumerated spellings are accepted. */
  function ParseStream(s: string): (r: Option<Stream>)
    ensures forall x :: r == Some(x) <==> StreamName(x) == s
  {
    if s == "science" then Some(Science)
    else if s == "commerce" then Some(Commerce)
    else if s == "arts" then Some(Arts)
    else if s == "vocational" then Some(Vocational)
    else if s == "all" then Some(AllStreams)
    else None
  }

  function TypeName(t: ContentType): string {
    match t
    case Video => "video"
    case Article => "article"
    case Quiz => "quiz"
    case Assignment => "assignment"
  }

  /** Reads a stored content type; only the four enumerated spellings are accepted. */
  function ParseType(s: string): (r: Option<ContentType>)
    ensures forall t :: r == Some(t) <==> TypeName(t) == s
  {
    if s == "video" then Some(Video)
    else if s == "article" then Some(Article)
    else if s == "quiz" then Some(Quiz)
    else if s == "assignment" then Some(Assignment)
    else None
  }

  function DifficultyName(d: Difficulty): string {
    match d
    case Beginner => "beginner"
    case Intermediate => "intermediate"
    case Advanced => "advanced"
  }

  /** Reads a stored difficulty; only the three enumerated spellings are accepted. */
  function ParseDifficulty(s: string): (r: Option<Difficulty>)
    ensures forall d :: r == Some(d) <==> DifficultyName(d) == s
  {
    if s == "beginner" then Some(Beginner)
    else if s == "intermediate" then Some(Intermediate)
    else if s == "advanced" then Some(Advanced)
    else None
  }

  const DefaultXPReward: int := 10

  /** A stored content document. */
  datatype Content = Content(
    id: string,
    title: string,
    description: string,
    category: Category,
    grade: Grade,
    stream: Stream,
    kind: ContentType,
    duration: Option<int>,
    difficulty: Difficulty,
    xpReward: int,
    isPublished: bool,
    createdAt: Time)

  /** The fields a new document is created from; `None` is an absent key. */
  datatype ContentDraft = ContentDraft(
    title: Option<string>,
    description: Option<string>,
    category: Option<string>,
    grade: Option<string>,
    stream: Option<string>,
    kind: Option<string>,
    duration: Option<int>,
    difficulty: Option<string>,
    xpReward: Option<int>,
    isPublished: Option<bool>)

  /** An optional enumerated value: absent takes the default, present must parse. */
  function WithDefault<T>(given: Option<string>, parse: string -> Option<T>, default: T): Option<T> {
    if given.None? then Some(default) else parse(given.value)
  }

  /**
   * Validation and defaults on creation: title, description, category,
   * grade and type are required (an empty string counts as missing); every
   * enumerated field must hold one of its spellings; stream defaults to
   * `all`, difficulty to `beginner`, the XP reward to 10 and the publish
   * flag to true.
   */
  function CreateContent(d: ContentDraft, id: string, now: Time): (r: Option<Content>)
    ensures r.Some? <==>
      Truthy(d.title) && Truthy(d.description) &&
      d.category.Some? && ParseCategory(d.category.value).Some? &&
      d.grade.Some? && ParseGrade(d.grade.value).Some? &&
      d.kind.Some? && ParseType(d.kind.value).Some? &&
      (d.stream.None? || ParseStream(d.stream.value).Some?) &&
      (d.difficulty.None? || ParseDifficulty(d.difficulty.value).Some?)
    ensures r.Some? ==>
      && CategoryName(r.value.category) == d.category.value
      && GradeName(r.value.grade) == d.grade.value
      && TypeName(r.value.kind) == d.kind.value
      && StreamName(r.value.stream) == d.stream.GetOr("all")
      && DifficultyName(r.value.difficulty) == d.difficulty.GetOr("beginner")
      && r.value.xpReward == d.xpReward.GetOr(DefaultXPReward)
      && r.value.isPublished == d.isPublished.GetOr(true)
      && r.value.id == id && r.value.createdAt == now
  {
    var category := if d.category.Some? then ParseCategory(d.category.value) else None;
    var grade := if d.grade.Some? then ParseGrade(d.grade.value) else None;
    var kind := if d.kind.Some? then ParseType(d.kind.value) else None;
    var stream := WithDefault(d.stream, ParseStream, AllStreams);
    var difficulty := WithDefault(d.difficulty, ParseDifficulty, Beginner);
    if Truthy(d.title) && Truthy(d.description) && category.Some? && grade.Some? && kind.Some?
       && stream.Some? && difficulty.Some?
    then
      Some(Content(id, d.title.value, d.description.value, category.value, grade.value, stream.value,
                   kind.value, d.duration, difficulty.value, d.xpReward.GetOr(DefaultXPReward),
                   d.isPublished.GetOr(true), now))
    else None
  }

  /** A draft with only the required fields yields the documented defaults. */
  lemma MinimalDraftDefaults(title: string, description: string, category: Category, grade: Grade, kind: ContentType,
                             id: string, now: Time)
    requires title != "" && description != ""
    ensures var r := CreateContent(ContentDraft(Some(title), Some(description), Some(CategoryName(category)),
                                                Some(GradeName(grade)), None, Some(TypeName(kind)), None, None, None, None), id, now);
      r == Some(Content(id, title, description, category, grade, AllStreams, kind, None, Beginner, DefaultXPReward, true, now))
  {
  }
}
