/**
 * The entities of the treasure-hunt game, their nested settings, the closed
 * status enumerations and the three challenge type guards of src/types.ts.
 *
 * Row shapes follow the table declarations of convex/schema.ts: a field the
 * schema declares with `v.optional` is an `Option`, a status or kind the
 * schema stores as `v.string()` is a `string` (the enumerations below say
 * which strings the front end expects), `v.number()` fields are integers
 * (timestamps naturals, latitude and longitude reals), and `v.any()` bags are
 * `Json` values.
 */
module Types {
  import opened Wrappers

  /** A document identifier allocated by the store. */
  type Id = nat

  /** A reading of the millisecond clock, kept opaque. */
  type Timestamp = nat

  /** The contents of an `any`-typed field. */
  datatype Json =
    | JNull
    | JBool(b: bool)
    | JNumber(n: int)
    | JString(s: string)
    | JArray(items: seq<Json>)
    | JObject(fields: seq<(string, Json)>)

  // Nested records

  datatype PrivacySettings = PrivacySettings(isPublic: bool, allowJoinAfterStart: bool)

  datatype DisplaySettings = DisplaySettings(primaryColor: Option<string>, coverImage: Option<string>)

  datatype LocationSettings = LocationSettings(requireSequential: bool, hints: Option<seq<string>>)

  /** The content bag of a challenge; which fields are present depends on its type. */
  datatype ChallengeContent = ChallengeContent(
    question: Option<string>,
    options: Option<seq<string>>,
    correctOption: Option<int>,
    targetWord: Option<string>,
    imageUrl: Option<string>)

  datatype CompletionRules = CompletionRules(
    timeLimit: Option<int>,
    points: int,
    requiredAccuracy: Option<int>)

  // Rows, one datatype per table

  datatype Teacher = Teacher(email: string, passwordHash: string, createdAt: Timestamp)

  datatype Game = Game(
    teacherId: Id,
    title: string,
    description: string,
    shortDescription: string,
    joinCode: string,
    status: string,
    categoryId: Option<Id>,
    privacySettings: PrivacySettings,
    displaySettings: DisplaySettings,
    startTime: Option<Timestamp>,
    endTime: Option<Timestamp>,
    estimatedDuration: int,
    playerCountMin: Option<int>,
    playerCountMax: Option<int>,
    createdAt: Timestamp)

  datatype Category = Category(name: string, description: string, displayOrder: int, createdAt: Timestamp)

  datatype GameMedia = GameMedia(
    gameId: Id,
    mediaType: string,
    url: string,
    altText: Option<string>,
    displayOrder: int,
    createdAt: Timestamp)

  datatype Location = Location(
    gameId: Id,
    name: string,
    latitude: real,
    longitude: real,
    sequenceOrder: int,
    radiusMeters: int,
    settings: LocationSettings)

  datatype Challenge = Challenge(
    locationId: Id,
    typeId: Id,
    title: string,
    content: ChallengeContent,
    completionRules: CompletionRules,
    prerequisites: Option<seq<Id>>,
    createdAt: Timestamp)

  datatype ChallengeType = ChallengeType(
    name: string,
    description: string,
    validationRules: Json,
    uiSchema: Json,
    defaultSettings: Json,
    isActive: bool)

  datatype Team = Team(name: string, maxPlayers: int, createdAt: Timestamp)

  datatype Player = Player(
    nickname: string,
    websocketSession: Option<string>,
    lastActive: Timestamp,
    joinedAt: Timestamp)

  datatype Session = Session(
    gameId: Id,
    teamId: Option<Id>,
    status: string,
    startTime: Timestamp,
    endTime: Option<Timestamp>,
    score: int,
    metadata: Json)

  datatype SessionState = SessionState(
    sessionId: Id,
    currentLocationId: Option<Id>,
    currentChallengeId: Option<Id>,
    progressState: Json,
    updatedAt: Timestamp)

  datatype Submission = Submission(
    sessionId: Id,
    challengeId: Id,
    typeId: Id,
    answer: Json,
    isCorrect: bool,
    pointsEarned: int,
    metadata: Json,
    submittedAt: Timestamp)

  datatype Hint = Hint(challengeId: Id, content: string, pointsPenalty: int, unlockDelayMinutes: int)

  datatype ChatMessage = ChatMessage(
    sessionId: Id,
    playerId: Id,
    content: string,
    messageType: string,
    sentAt: Timestamp)

  // Closed enumerations. The schema stores each of them as an unconstrained
  // string; the parse functions say which strings denote a member.

  datatype GameStatus = Draft | Published | Archived

  function GameStatusName(s: GameStatus): string
  {
    match s
    case Draft => "draft"
    case Published => "published"
    case Archived => "archived"
  }

  function ParseGameStatus(s: string): (r: Option<GameStatus>)
    ensures r.Some? <==> s == "draft" || s == "published" || s == "archived"
    ensures r.Some? ==> GameStatusName(r.value) == s
  {
    if s == "draft" then Some(Draft)
    else if s == "published" then Some(Published)
    else if s == "archived" then Some(Archived)
    else None
  }

  lemma GameStatusRoundTrip(st: GameStatus)
    ensures ParseGameStatus(GameStatusName(st)) == Some(st)
  {
  }

  datatype SessionStatus = Active | Paused | Completed

  function SessionStatusName(s: SessionStatus): string
  {
    match s
    case Active => "active"
    case Paused => "paused"
    case Completed => "completed"
  }

  function ParseSessionStatus(s: string): (r: Option<SessionStatus>)
    ensures r.Some? <==> s == "active" || s == "paused" || s == "completed"
    ensures r.Some? ==> SessionStatusName(r.value) == s
  {
    if s == "active" then Some(Active)
    else if s == "paused" then Some(Paused)
    else if s == "completed" then Some(Completed)
    else None
  }

  lemma SessionStatusRoundTrip(st: SessionStatus)
    ensures ParseSessionStatus(SessionStatusName(st)) == Some(st)
  {
  }

  datatype MediaType = Cover | Gallery | Tutorial

  function MediaTypeName(m: MediaType): string
  {
    match m
    case Cover => "cover"
    case Gallery => "gallery"
    case Tutorial => "tutorial"
  }

  function ParseMediaType(s: string): (r: Option<MediaType>)
    ensures r.Some? <==> s == "cover" || s == "gallery" || s == "tutorial"
    ensures r.Some? ==> MediaTypeName(r.value) == s
  {
    if s == "cover" then Some(Cover)
    else if s == "gallery" then Some(Gallery)
    else if s == "tutorial" then Some(Tutorial)
    else None
  }

  lemma MediaTypeRoundTrip(m: MediaType)
    ensures ParseMediaType(MediaTypeName(m)) == Some(m)
  {
  }

  datatype MessageType = Text | System | Join | Leave

  function MessageTypeName(m: MessageType): string
  {
    match m
    case Text => "text"
    case System => "system"
    case Join => "join"
    case Leave => "leave"
  }

  function ParseMessageType(s: string): (r: Option<MessageType>)
    ensures r.Some? <==> s == "text" || s == "system" || s == "join" || s == "leave"
    ensures r.Some? ==> MessageTypeName(r.value) == s
  {
    if s == "text" then Some(Text)
    else if s == "system" then Some(System)
    else if s == "join" then Some(Join)
    else if s == "leave" then Some(Leave)
    else None
  }

  lemma MessageTypeRoundTrip(m: MessageType)
    ensures ParseMessageType(MessageTypeName(m)) == Some(m)
  {
  }

  /**
   * The schema types the game and session status columns and the media and
   * chat-message kind columns as plain strings: a row of each may carry the
   * string "deleted", which no member of the matching enumeration names.
   */
  lemma UnconstrainedStatusString(g: Game, s: Session, m: GameMedia, c: ChatMessage)
    ensures ParseGameStatus(g.(status := "deleted").status) == None
    ensures ParseSessionStatus(s.(status := "deleted").status) == None
    ensures ParseMediaType(m.(mediaType := "deleted").mediaType) == None
    ensures ParseMessageType(c.(messageType := "deleted").messageType) == None
  {
  }

  // Type guards

  predicate IsMultipleChoiceChallenge(c: Challenge)
  {
    c.content.options.Some? && c.content.correctOption.Some?
  }

  predicate IsPhotoChallenge(c: Challenge)
  {
    c.content.imageUrl.Some? && !IsMultipleChoiceChallenge(c)
  }

  predicate IsWordGameChallenge(c: Challenge)
  {
    c.content.targetWord.Some?
  }

  /** Photo holds exactly when there is an image and one of the two multiple-choice fields is missing. */
  lemma PhotoTruthCondition(c: Challenge)
    ensures IsPhotoChallenge(c) <==>
      c.content.imageUrl.Some? && (c.content.options.None? || c.content.correctOption.None?)
  {
  }

  /** No challenge is classified both as photo and as multiple choice. */
  lemma PhotoExcludesMultipleChoice(c: Challenge)
    ensures !(IsPhotoChallenge(c) && IsMultipleChoiceChallenge(c))
  {
  }

  /** A challenge with an image is accepted by exactly one of the photo and multiple-choice guards. */
  lemma ImageClassifiedOnce(c: Challenge)
    requires c.content.imageUrl.Some?
    ensures IsPhotoChallenge(c) != IsMultipleChoiceChallenge(c)
  {
  }

  /** The word-game guard looks at `targetWord` alone: two challenges that agree on it agree on the guard. */
  lemma WordGameDependsOnlyOnTargetWord(c: Challenge, d: Challenge)
    requires c.content.targetWord.Some? == d.content.targetWord.Some?
    ensures IsWordGameChallenge(c) == IsWordGameChallenge(d)
  {
  }

  /** The guards read the content bag only, never the type id, location or rules. */
  lemma GuardsReadOnlyContent(c: Challenge, d: Challenge)
    requires c.content == d.content
    ensures IsMultipleChoiceChallenge(c) == IsMultipleChoiceChallenge(d)
    ensures IsPhotoChallenge(c) == IsPhotoChallenge(d)
    ensures IsWordGameChallenge(c) == IsWordGameChallenge(d)
  {
  }

  /**
   * The multiple-choice guard does not check `question`, although the type it
   * narrows to declares `question` as required; nor does it check that
   * `correctOption` indexes into `options`.
   */
  lemma MultipleChoiceGuardIgnoresQuestionAndRange(c: Challenge)
    requires c.content.question.None? && c.content.options == Some([]) && c.content.correctOption == Some(7)
    ensures IsMultipleChoiceChallenge(c)
  {
  }
}
