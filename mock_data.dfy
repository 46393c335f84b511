/**
 * The seed routine `generateJerusalemGameMockData`: a fixed sequence of
 * inserts (teacher, category, game, three challenge types) followed by a loop
 * over three hard-coded Jerusalem locations that inserts, per location, the
 * location, a "find" challenge, an "at-location" challenge and, for two of
 * them, a hint on the find challenge.
 *
 * The rows the routine adds are given as specification functions of the
 * first free id and the clock reading; the methods are proved to append
 * exactly those rows. No decision of the routine looks at the header texts,
 * the three type descriptions with their JSON bags (the numbers inside them
 * included), the riddles and questions, the image paths, the two option lists
 * or the two hint texts; these are gathered in one record, `JerusalemPayload`,
 * which the functions take as a parameter. The location array (names,
 * coordinates, orders, radii and settings with their hint lists), the target
 * words, the join code, the type names and every other number are fixed here
 * in `MockData`.
 */
module MockData {
  import opened Wrappers
  import opened Types
  import opened Store

  const WesternWall := "Western Wall"
  const HolySepulchre := "Church of the Holy Sepulchre"
  const MahaneYehuda := "Mahane Yehuda Market"

  /** Seven days in milliseconds: the game's time window. */
  const WeekMillis := 7 * 24 * 60 * 60 * 1000

  /** The join code every call gives its game. */
  const JoinCode := "JLMOLD"

  const MultipleChoiceName := "Multiple Choice"
  const PhotoName := "Photo Task"
  const WordGameName := "Word Game"

  /** The two target words of the find challenges. */
  const WesternWallWord := "WESTERN WALL"
  const MahaneYehudaWord := "MAHANE YEHUDA"

  // The payload: what the routine writes but never branches on

  /** The description and the three JSON bags of a challenge type. */
  datatype TypeText = TypeText(description: string, validationRules: Json, uiSchema: Json, defaultSettings: Json)

  datatype Payload = Payload(
    teacherEmail: string,
    teacherPasswordHash: string,
    categoryName: string,
    categoryDescription: string,
    gameTitle: string,
    gameDescription: string,
    gameShortDescription: string,
    gamePrimaryColor: string,
    gameCoverImage: string,
    multipleChoice: TypeText,
    photo: TypeText,
    wordGame: TypeText,
    westernWallRiddle: string,
    holySepulchreRiddle: string,
    marketRiddle: string,
    entranceImage: string,
    westernWallQuestion: string,
    lampsQuestion: string,
    spicesQuestion: string,
    templeOptions: seq<string>,
    lampOptions: seq<string>,
    spicesImage: string,
    westernWallHint: string,
    holySepulchreHint: string)

  const JerusalemPayload := Payload(
    "teacher@example.com",
    "hashed_password_here",
    "Historical Sites",
    "Explore the rich history of Jerusalem",
    "Old City Jerusalem Adventure",
    "Explore the ancient wonders of Jerusalem's Old City in this educational treasure hunt.",
    "Historic treasure hunt in Jerusalem's Old City",
    "#3b82f6",
    "/images/jerusalem-old-city.jpg",
    TypeText(
      "Answer a question by selecting from options",
      JObject([("type", JString("multipleChoice"))]),
      JObject([("component", JString("MultipleChoiceChallenge"))]),
      JObject([("timeLimit", JNumber(60)), ("points", JNumber(100))])),
    TypeText(
      "Take a photo of a specific object or landmark",
      JObject([("type", JString("photo"))]),
      JObject([("component", JString("PhotoChallenge"))]),
      JObject([("points", JNumber(150))])),
    TypeText(
      "Solve a word puzzle or anagram",
      JObject([("type", JString("wordGame"))]),
      JObject([("component", JString("WordGameChallenge"))]),
      JObject([("timeLimit", JNumber(120)), ("points", JNumber(200))])),
    "Unscramble the letters: STERWEN LALW",
    "Find the main entrance to the Church",
    "Solve this riddle: 'Where vendors call and flavors meet, Jerusalem's heart with things to eat'",
    "/images/holy-sepulchre-entrance.jpg",
    "What is the Western Wall a remnant of?",
    "Count the number of lamps hanging above the Edicule. How many are there?",
    "Find and photograph these three spices: Za'atar, Sumac, and Baharat",
    ["The First Temple", "The Second Temple", "The Church of the Holy Sepulchre", "Herod's Palace"],
    ["12", "13", "15", "17"],
    "/images/spices.jpg",
    "It's the holiest place where Jews are permitted to pray",
    "It's in the Christian Quarter, follow the pilgrims")

  // The fixed rows inserted before the loop

  function SeedTeacher(p: Payload, now: Timestamp): Teacher
  {
    Teacher(p.teacherEmail, p.teacherPasswordHash, now)
  }

  function SeedCategory(p: Payload, now: Timestamp): Category
  {
    Category(p.categoryName, p.categoryDescription, 1, now)
  }

  function SeedGame(p: Payload, teacherId: Id, categoryId: Id, now: Timestamp): Game
  {
    Game(
      teacherId,
      p.gameTitle,
      p.gameDescription,
      p.gameShortDescription,
      JoinCode,
      GameStatusName(Published),
      Some(categoryId),
      PrivacySettings(true, true),
      DisplaySettings(Some(p.gamePrimaryColor), Some(p.gameCoverImage)),
      Some(now),
      Some(now + WeekMillis),
      120,
      Some(1),
      Some(10),
      now)
  }

  /** An active challenge type. */
  function TypeRow(name: string, t: TypeText): ChallengeType
  {
    ChallengeType(name, t.description, t.validationRules, t.uiSchema, t.defaultSettings, true)
  }

  /** The three challenge types, inserted under ids `n + 3`, `n + 4` and `n + 5`. */
  function ChallengeTypeRows(p: Payload, n: Id): seq<Doc<ChallengeType>>
  {
    [Doc(n + 3, TypeRow(MultipleChoiceName, p.multipleChoice)),
     Doc(n + 4, TypeRow(PhotoName, p.photo)),
     Doc(n + 5, TypeRow(WordGameName, p.wordGame))]
  }

  /** The ids of the three challenge types inserted in this call. */
  datatype TypeIds = TypeIds(multipleChoice: Id, photo: Id, wordGame: Id)

  // The location table and the per-location dispatch

  /** An element of the hard-coded `locations` array: a location row without its game. */
  datatype LocationSeed = LocationSeed(
    name: string,
    latitude: real,
    longitude: real,
    sequenceOrder: int,
    radiusMeters: int,
    settings: LocationSettings)

  const JerusalemLocations: seq<LocationSeed> := [
    LocationSeed(WesternWall, 31.7767, 35.2345, 1, 50,
      LocationSettings(true, Some(["Look for the large prayer plaza", "Near the Temple Mount"]))),
    LocationSeed(HolySepulchre, 31.7784, 35.2297, 2, 30,
      LocationSettings(true, Some(["In the Christian Quarter", "Look for the large dome"]))),
    LocationSeed(MahaneYehuda, 31.7857, 35.212, 3, 100,
      LocationSettings(false, Some(["Follow the smell of fresh bread and spices", "The busiest market in Jerusalem"])))
  ]

  /** The location row inserted for an array element: the element's fields, tagged with the game's id. */
  function LocationRow(gameId: Id, loc: LocationSeed): Location
  {
    Location(gameId, loc.name, loc.latitude, loc.longitude, loc.sequenceOrder, loc.radiusMeters, loc.settings)
  }

  /**
   * The three names the routine tells apart. Every comparison of a location
   * name in the routine is against one of them; any other name takes the
   * final else-branch of each comparison.
   */
  datatype Site = WesternWallSite | HolySepulchreSite | MarketSite | OtherSite

  function SiteOf(name: string): (s: Site)
    ensures s == WesternWallSite <==> name == WesternWall
    ensures s == HolySepulchreSite <==> name == HolySepulchre
    ensures s == MarketSite <==> name == MahaneYehuda
  {
    if name == WesternWall then WesternWallSite
    else if name == HolySepulchre then HolySepulchreSite
    else if name == MahaneYehuda then MarketSite
    else OtherSite
  }

  /** The "find" challenge of a location: a word game, except a photo task at the Holy Sepulchre. */
  function FindChallenge(p: Payload, name: string, locationId: Id, types: TypeIds, now: Timestamp): Challenge
  {
    var site := SiteOf(name);
    Challenge(
      locationId,
      if site == HolySepulchreSite then types.photo else types.wordGame,
      "Find " + name,
      ChallengeContent(
        Some(match site
             case WesternWallSite => p.westernWallRiddle
             case HolySepulchreSite => p.holySepulchreRiddle
             case _ => p.marketRiddle),
        None,
        None,
        Some(if site == WesternWallSite then WesternWallWord else MahaneYehudaWord),
        if site == HolySepulchreSite then Some(p.entranceImage) else None),
      CompletionRules(Some(300), 150, Some(100)),
      None,
      now)
  }

  /** The "at-location" challenge: multiple choice, except a photo task at the market. */
  function AtLocationChallenge(p: Payload, name: string, locationId: Id, types: TypeIds, now: Timestamp): Challenge
  {
    var site := SiteOf(name);
    Challenge(
      locationId,
      if site == MarketSite then types.photo else types.multipleChoice,
      name + " Challenge",
      ChallengeContent(
        Some(match site
             case WesternWallSite => p.westernWallQuestion
             case HolySepulchreSite => p.lampsQuestion
             case _ => p.spicesQuestion),
        if site != MarketSite then Some(if site == WesternWallSite then p.templeOptions else p.lampOptions)
        else None,
        Some(if site == WesternWallSite then 1 else 1),
        None,
        if site == MarketSite then Some(p.spicesImage) else None),
      CompletionRules(if site != MarketSite then Some(60) else None,
                      if site == MarketSite then 250 else 100,
                      None),
      None,
      now)
  }

  /** The condition under which a location gets a hint. */
  predicate HasHint(name: string)
  {
    SiteOf(name) == WesternWallSite || SiteOf(name) == HolySepulchreSite
  }

  /** The hint inserted, when `HasHint(name)`, on the location's find challenge. */
  function HintFor(p: Payload, name: string, findChallengeId: Id): Hint
  {
    var westernWall := SiteOf(name) == WesternWallSite;
    Hint(
      findChallengeId,
      if westernWall then p.westernWallHint else p.holySepulchreHint,
      if westernWall then 30 else 20,
      if westernWall then 5 else 3)
  }

  // The rows the loop adds

  /** Rows added to the location, challenge and hint tables, and the next free id. */
  datatype Seeded = Seeded(
    locations: seq<Doc<Location>>,
    challenges: seq<Doc<Challenge>>,
    hints: seq<Doc<Hint>>,
    next: Id)

  /** One loop iteration, starting with `next` as the first free id. */
  function SeedStep(p: Payload, loc: LocationSeed, gameId: Id, types: TypeIds, next: Id, now: Timestamp): Seeded
  {
    Seeded(
      [Doc(next, LocationRow(gameId, loc))],
      [Doc(next + 1, FindChallenge(p, loc.name, next, types, now)),
       Doc(next + 2, AtLocationChallenge(p, loc.name, next, types, now))],
      if HasHint(loc.name) then [Doc(next + 3, HintFor(p, loc.name, next + 1))] else [],
      if HasHint(loc.name) then next + 4 else next + 3)
  }

  /** The rows of `later` following those of `earlier`. */
  function Then(earlier: Seeded, later: Seeded): Seeded
  {
    Seeded(earlier.locations + later.locations, earlier.challenges + later.challenges,
           earlier.hints + later.hints, later.next)
  }

  /** The loop over `locs`, in array order, starting with `next` as the first free id. */
  function SeedLoop(p: Payload, locs: seq<LocationSeed>, gameId: Id, types: TypeIds, next: Id, now: Timestamp): Seeded
    decreases |locs|
  {
    if locs == [] then Seeded([], [], [], next)
    else
      var done := SeedLoop(p, locs[..|locs| - 1], gameId, types, next, now);
      Then(done, SeedStep(p, locs[|locs| - 1], gameId, types, done.next, now))
  }

  /** All rows one call adds, with the returned game id and the next free id. */
  datatype Bundle = Bundle(
    teachers: seq<Doc<Teacher>>,
    categories: seq<Doc<Category>>,
    games: seq<Doc<Game>>,
    challengeTypes: seq<Doc<ChallengeType>>,
    locations: seq<Doc<Location>>,
    challenges: seq<Doc<Challenge>>,
    hints: seq<Doc<Hint>>,
    gameId: Id,
    next: Id)

  /** The rows one call adds to a store whose next free id is `n`. */
  function Seed(p: Payload, n: Id, now: Timestamp): Bundle
  {
    var loop := SeedLoop(p, JerusalemLocations, n + 2, TypeIds(n + 3, n + 4, n + 5), n + 6, now);
    Bundle(
      [Doc(n, SeedTeacher(p, now))],
      [Doc(n + 1, SeedCategory(p, now))],
      [Doc(n + 2, SeedGame(p, n, n + 1, now))],
      ChallengeTypeRows(p, n),
      loop.locations, loop.challenges, loop.hints,
      n + 2,
      loop.next)
  }

  /** `SeedLoop` over one more element extends it by one step. */
  lemma SeedLoopSnoc(p: Payload, locs: seq<LocationSeed>, i: nat, gameId: Id, types: TypeIds, next: Id, now: Timestamp)
    requires i < |locs|
    ensures var done := SeedLoop(p, locs[..i], gameId, types, next, now);
      SeedLoop(p, locs[..i + 1], gameId, types, next, now) == Then(done, SeedStep(p, locs[i], gameId, types, done.next, now))
  {
    assert locs[..i + 1][..i] == locs[..i];
  }

  /** One iteration hands out the ids `next`, `next + 1`, ... in each table, in order. */
  lemma SeedStepFresh(p: Payload, loc: LocationSeed, gameId: Id, types: TypeIds, next: Id, now: Timestamp)
    ensures var r := SeedStep(p, loc, gameId, types, next, now);
      && FreshIds(r.locations, next, r.next)
      && FreshIds(r.challenges, next, r.next)
      && FreshIds(r.hints, next, r.next)
  {
  }

  /** Every id the loop hands out lies in `[next, r.next)`, rising in insertion order, in each table. */
  lemma {:induction false} SeedLoopFresh(p: Payload, locs: seq<LocationSeed>, gameId: Id, types: TypeIds, next: Id, now: Timestamp)
    ensures var r := SeedLoop(p, locs, gameId, types, next, now);
      && FreshIds(r.locations, next, r.next)
      && FreshIds(r.challenges, next, r.next)
      && FreshIds(r.hints, next, r.next)
    decreases |locs|
  {
    if locs != [] {
      var done := SeedLoop(p, locs[..|locs| - 1], gameId, types, next, now);
      var step := SeedStep(p, locs[|locs| - 1], gameId, types, done.next, now);
      SeedLoopFresh(p, locs[..|locs| - 1], gameId, types, next, now);
      SeedStepFresh(p, locs[|locs| - 1], gameId, types, done.next, now);
      FreshIdsConcat(done.locations, step.locations, next, done.next, step.next);
      FreshIdsConcat(done.challenges, step.challenges, next, done.next, step.next);
      FreshIdsConcat(done.hints, step.hints, next, done.next, step.next);
    }
  }

  /** The three type rows take the ids `n + 3`, `n + 4`, `n + 5`, in order. */
  lemma ChallengeTypeRowsFresh(p: Payload, n: Id)
    ensures FreshIds(ChallengeTypeRows(p, n), n + 3, n + 6)
  {
  }

  /** Every id one call hands out lies in `[n, s.next)`, rising in insertion order, in each table. */
  lemma SeedFresh(p: Payload, n: Id, now: Timestamp)
    ensures var s := Seed(p, n, now);
      && FreshIds(s.teachers, n, s.next)
      && FreshIds(s.categories, n, s.next)
      && FreshIds(s.games, n, s.next)
      && FreshIds(s.challengeTypes, n, s.next)
      && FreshIds(s.locations, n, s.next)
      && FreshIds(s.challenges, n, s.next)
      && FreshIds(s.hints, n, s.next)
  {
    var loop := SeedLoop(p, JerusalemLocations, n + 2, TypeIds(n + 3, n + 4, n + 5), n + 6, now);
    SeedLoopFresh(p, JerusalemLocations, n + 2, TypeIds(n + 3, n + 4, n + 5), n + 6, now);
    ChallengeTypeRowsFresh(p, n);
    FreshIdsWiden(ChallengeTypeRows(p, n), n + 3, n + 6, n, loop.next);
    FreshIdsWiden(loop.locations, n + 6, loop.next, n, loop.next);
    FreshIdsWiden(loop.challenges, n + 6, loop.next, n, loop.next);
    FreshIdsWiden(loop.hints, n + 6, loop.next, n, loop.next);
  }

  /** One call keeps every table allocated: it appends rows stamped with fresh, increasing ids. */
  lemma SeedKeepsAllocated(p: Payload,
    teachers: seq<Doc<Teacher>>, categories: seq<Doc<Category>>, games: seq<Doc<Game>>,
    challengeTypes: seq<Doc<ChallengeType>>, locations: seq<Doc<Location>>,
    challenges: seq<Doc<Challenge>>, hints: seq<Doc<Hint>>, n: Id, now: Timestamp)
    requires Allocated(teachers, n) && Allocated(categories, n) && Allocated(games, n)
    requires Allocated(challengeTypes, n) && Allocated(locations, n)
    requires Allocated(challenges, n) && Allocated(hints, n)
    ensures var s := Seed(p, n, now);
      && Allocated(teachers + s.teachers, s.next)
      && Allocated(categories + s.categories, s.next)
      && Allocated(games + s.games, s.next)
      && Allocated(challengeTypes + s.challengeTypes, s.next)
      && Allocated(locations + s.locations, s.next)
      && Allocated(challenges + s.challenges, s.next)
      && Allocated(hints + s.hints, s.next)
  {
    var s := Seed(p, n, now);
    SeedFresh(p, n, now);
    FreshIdsConcat(teachers, s.teachers, 0, n, s.next);
    FreshIdsConcat(categories, s.categories, 0, n, s.next);
    FreshIdsConcat(games, s.games, 0, n, s.next);
    FreshIdsConcat(challengeTypes, s.challengeTypes, 0, n, s.next);
    FreshIdsConcat(locations, s.locations, 0, n, s.next);
    FreshIdsConcat(challenges, s.challenges, 0, n, s.next);
    FreshIdsConcat(hints, s.hints, 0, n, s.next);
  }

  /** Appending is associative; stated for the loop below, where regrouping is the costly step. */
  lemma AppendAssoc<T>(a: seq<T>, b: seq<T>, c: seq<T>)
    ensures a + b + c == a + (b + c)
  {
  }

  /** One iteration of the loop: the location, its two challenges and, for two names, a hint. */
  method SeedLocation(db: Database, p: Payload, loc: LocationSeed, gameId: Id, types: TypeIds, now: Timestamp)
    modifies db`locations, db`challenges, db`hints, db`nextId
    ensures var step := SeedStep(p, loc, gameId, types, old(db.nextId), now);
      && db.locations == old(db.locations) + step.locations
      && db.challenges == old(db.challenges) + step.challenges
      && db.hints == old(db.hints) + step.hints
      && db.nextId == step.next
  {
    var locationId := db.InsertLocation(LocationRow(gameId, loc));
    var findChallengeId := db.InsertChallenge(FindChallenge(p, loc.name, locationId, types, now));
    var _ := db.InsertChallenge(AtLocationChallenge(p, loc.name, locationId, types, now));
    if HasHint(loc.name) {
      var _ := db.InsertHint(HintFor(p, loc.name, findChallengeId));
    }
  }

  /** The loop over the location array: one iteration per element of `locs`, in array order. */
  method SeedLocations(db: Database, p: Payload, locs: seq<LocationSeed>, gameId: Id, types: TypeIds, now: Timestamp)
    modifies db`locations, db`challenges, db`hints, db`nextId
    ensures var done := SeedLoop(p, locs, gameId, types, old(db.nextId), now);
      && db.locations == old(db.locations) + done.locations
      && db.challenges == old(db.challenges) + done.challenges
      && db.hints == old(db.hints) + done.hints
      && db.nextId == done.next
  {
    var i := 0;
    while i < |locs|
      invariant 0 <= i <= |locs|
      invariant var done := SeedLoop(p, locs[..i], gameId, types, old(db.nextId), now);
        && db.locations == old(db.locations) + done.locations
        && db.challenges == old(db.challenges) + done.challenges
        && db.hints == old(db.hints) + done.hints
        && db.nextId == done.next
    {
      ghost var done := SeedLoop(p, locs[..i], gameId, types, old(db.nextId), now);
      ghost var step := SeedStep(p, locs[i], gameId, types, db.nextId, now);
      SeedLoopSnoc(p, locs, i, gameId, types, old(db.nextId), now);
      SeedLocation(db, p, locs[i], gameId, types, now);
      AppendAssoc(old(db.locations), done.locations, step.locations);
      AppendAssoc(old(db.challenges), done.challenges, step.challenges);
      AppendAssoc(old(db.hints), done.hints, step.hints);
      i := i + 1;
    }
    assert locs[..i] == locs;
  }

  /** The inserts before the loop: teacher, category, game and the three challenge types. */
  method SeedHeader(db: Database, p: Payload, now: Timestamp) returns (gameId: Id, types: TypeIds)
    modifies db`teachers, db`categories, db`games, db`challengeTypes, db`nextId
    ensures var n := old(db.nextId);
      && gameId == n + 2 && types == TypeIds(n + 3, n + 4, n + 5) && db.nextId == n + 6
      && db.teachers == old(db.teachers) + [Doc(n, SeedTeacher(p, now))]
      && db.categories == old(db.categories) + [Doc(n + 1, SeedCategory(p, now))]
      && db.games == old(db.games) + [Doc(n + 2, SeedGame(p, n, n + 1, now))]
      && db.challengeTypes == old(db.challengeTypes) + ChallengeTypeRows(p, n)
  {
    var teacherId := db.InsertTeacher(SeedTeacher(p, now));
    var historicalCategoryId := db.InsertCategory(SeedCategory(p, now));
    gameId := db.InsertGame(SeedGame(p, teacherId, historicalCategoryId, now));
    var multipleChoiceTypeId := db.InsertChallengeType(TypeRow(MultipleChoiceName, p.multipleChoice));
    var photoTypeId := db.InsertChallengeType(TypeRow(PhotoName, p.photo));
    var wordGameTypeId := db.InsertChallengeType(TypeRow(WordGameName, p.wordGame));
    types := TypeIds(multipleChoiceTypeId, photoTypeId, wordGameTypeId);
  }

  /**
   * The routine for a given payload: only inserts. Each of the seven tables
   * ends with its old rows followed by the new ones, and the store stays
   * valid. When the store already
   * holds a game with join code "JLMOLD", another one is simply added.
   */
  method SeedWith(db: Database, p: Payload, now: Timestamp) returns (gameId: Id)
    requires db.Valid()
    modifies db`teachers, db`categories, db`games, db`challengeTypes
    modifies db`locations, db`challenges, db`hints, db`nextId
    ensures db.Valid()
    ensures var s := Seed(p, old(db.nextId), now);
      && gameId == s.gameId
      && db.nextId == s.next
      && db.teachers == old(db.teachers) + s.teachers
      && db.categories == old(db.categories) + s.categories
      && db.games == old(db.games) + s.games
      && db.challengeTypes == old(db.challengeTypes) + s.challengeTypes
      && db.locations == old(db.locations) + s.locations
      && db.challenges == old(db.challenges) + s.challenges
      && db.hints == old(db.hints) + s.hints
  {
    var types;
    gameId, types := SeedHeader(db, p, now);
    SeedLocations(db, p, JerusalemLocations, gameId, types, now);
    SeedKeepsAllocated(p, old(db.teachers), old(db.categories), old(db.games), old(db.challengeTypes),
                       old(db.locations), old(db.challenges), old(db.hints), old(db.nextId), now);
  }

  /** `generateJerusalemGameMockData`: the routine with its own texts; returns the new game's id. */
  method GenerateJerusalemGameMockData(db: Database, now: Timestamp) returns (gameId: Id)
    requires db.Valid()
    modifies db`teachers, db`categories, db`games, db`challengeTypes
    modifies db`locations, db`challenges, db`hints, db`nextId
    ensures db.Valid()
    ensures var s := Seed(JerusalemPayload, old(db.nextId), now);
      && gameId == s.gameId
      && db.nextId == s.next
      && db.teachers == old(db.teachers) + s.teachers
      && db.categories == old(db.categories) + s.categories
      && db.games == old(db.games) + s.games
      && db.challengeTypes == old(db.challengeTypes) + s.challengeTypes
      && db.locations == old(db.locations) + s.locations
      && db.challenges == old(db.challenges) + s.challenges
      && db.hints == old(db.hints) + s.hints
  {
    gameId := SeedWith(db, JerusalemPayload, now);
  }
}
