# GeoQuiz seed routine and challenge guards, modelled in Dafny

GeoQuiz is the administrative back end of a geo-location treasure-hunt game.
Its data lives in a document store with one table per entity: teachers,
categories, games, locations, challenges, challenge types, hints, and so on.
This project models two parts of it and proves what they promise:

- `generateJerusalemGameMockData` (`convex/mockData.ts`) seeds a demo game.
  It inserts a teacher, a category, a game and three challenge types. It then
  loops over three hard-coded Old City locations: the Western Wall, the
  Church of the Holy Sepulchre and the Mahane Yehuda Market. Each iteration
  inserts the location, a "find" challenge and an "at-location" challenge,
  plus a hint for the first two sites. The routine returns the new game's id.
- The client's type guards (`src/types.ts`) classify a challenge from its
  content bag alone: multiple choice, photo or word game. The closed string
  enumerations of the same file are modelled too.

Layout:

- `wrappers.dfy` (`Wrappers`): `Option`.
- `types.dfy` (`Types`): the rows of every schema table as datatypes, the
  content bag and completion rules, the four enumerations with parsers and
  round trips, and the three guards with their lemmas.
- `store.dfy` (`Store`): the `Database` class. It holds one `seq` field per
  table the routine writes, plus one counter that hands out fresh ids. Each
  insert method appends one row stamped with the next id. `Valid()` says
  every table's ids are below the counter and rise in insertion order.
- `mock_data.dfy` (`MockData`): specification functions and methods.
  - `Seed` and `SeedLoop` give the rows one call adds, as functions of the
    first free id and the clock reading.
  - `SeedLocation`, `SeedLocations` (a `while` loop over the location array),
    `SeedHeader`, `SeedWith` and `GenerateJerusalemGameMockData` perform the
    inserts on a `Database`. Each is proved to append exactly those rows.
  - One record, `JerusalemPayload`, holds the values no branch of the routine
    looks at, and the functions take it as a parameter. Those values are:
    - the header texts;
    - the three type descriptions with their JSON bags, including the
      numbers inside the bags;
    - the riddles and questions;
    - the image paths;
    - the two option lists;
    - the two hint texts.
  - Everything else is fixed in `MockData`: the location array (names,
    coordinates, orders, radii, and settings with their hint lists), the
    target words, the join code, the type names and all other numbers.
- `seed_properties.dfy` (`SeedProperties`): what one call adds (counts, ids,
  links, type dispatch, rules, hints, guard verdicts). Dispatch is also stated
  for any location name, and the loop lemmas hold for any location array.

Every `Date.now()` reading of one call is the single parameter `now`.
Document ids are natural numbers from one counter shared by all tables.
One call adds 1+1+1+3+3+6+2 = 17 rows: a teacher, a category, a game, three
types, three locations, six challenges and two hints (`SeedCounts`).

## Model

| member | source | states |
|---|---|---|
| Types.ParseGameStatus | src/types.ts:178 | a string parses exactly when it is "draft", "published" or "archived", and parses to the member of that name |
| Types.ParseSessionStatus | src/types.ts:179 | a string parses exactly when it is "active", "paused" or "completed", and parses to the member of that name |
| Types.ParseMediaType | src/types.ts:180 | a string parses exactly when it is "cover", "gallery" or "tutorial", and parses to the member of that name |
| Types.ParseMessageType | src/types.ts:181 | a string parses exactly when it is "text", "system", "join" or "leave", and parses to the member of that name |
| Types.GameStatusRoundTrip | src/types.ts:178 | naming a game status and parsing the name gives the status back |
| Types.SessionStatusRoundTrip | src/types.ts:179 | naming a session status and parsing the name gives the status back |
| Types.MediaTypeRoundTrip | src/types.ts:180 | naming a media type and parsing the name gives the type back |
| Types.MessageTypeRoundTrip | src/types.ts:181 | naming a message type and parsing the name gives the type back |
| Types.UnconstrainedStatusString | convex/schema.ts:18-153 | the game status, session status, media kind and chat-message kind columns are free strings: a row of each may carry "deleted", which parses to no member of the matching enumeration |
| Types.IsMultipleChoiceChallenge | src/types.ts:223-230 | no contract: the definition is the guard's expression, `options` and `correctOption` both present; its properties are stated by `PhotoExcludesMultipleChoice`, `ImageClassifiedOnce`, `GuardsReadOnlyContent` and `MultipleChoiceGuardIgnoresQuestionAndRange` |
| Types.IsPhotoChallenge | src/types.ts:232-239 | no contract: the definition is the guard's expression, an image present and the multiple-choice guard false; its properties are stated by `PhotoTruthCondition`, `PhotoExcludesMultipleChoice`, `ImageClassifiedOnce` and `GuardsReadOnlyContent` |
| Types.IsWordGameChallenge | src/types.ts:241-245 | no contract: the definition is the guard's expression, `targetWord` present; its properties are stated by `WordGameDependsOnlyOnTargetWord` and `GuardsReadOnlyContent` |
| Types.PhotoTruthCondition | src/types.ts:232-239 | the photo guard holds exactly when an image is present and `options` or `correctOption` is missing |
| Types.PhotoExcludesMultipleChoice | src/types.ts:223-239 | no challenge passes both the photo and the multiple-choice guard |
| Types.ImageClassifiedOnce | src/types.ts:223-239 | a challenge with an image passes exactly one of the photo and multiple-choice guards |
| Types.WordGameDependsOnlyOnTargetWord | src/types.ts:241-245 | the word-game guard depends only on whether `targetWord` is present |
| Types.GuardsReadOnlyContent | src/types.ts:223-245 | two challenges with equal content bags get the same three verdicts, whatever their type ids, locations or rules |
| Types.MultipleChoiceGuardIgnoresQuestionAndRange | src/types.ts:184-190 | the multiple-choice guard accepts a challenge with no question whose answer index lies outside an empty option list |
| Store.Database.constructor | convex/schema.ts:5-156 | a new store is empty, valid, and hands out id 0 first |
| Store.Database.InsertTeacher | convex/mockData.ts:6-10 | appends the teacher under the next id, returns that id and advances the counter by one; other tables unchanged; a valid store stays valid |
| Store.Database.InsertCategory | convex/mockData.ts:13-18 | appends the category under the next id, returns that id and advances the counter by one; other tables unchanged; a valid store stays valid |
| Store.Database.InsertGame | convex/mockData.ts:21-44 | appends the game under the next id, returns that id and advances the counter by one; the join-code index adds no check; a valid store stays valid |
| Store.Database.InsertChallengeType | convex/mockData.ts:47-72 | appends the challenge type under the next id, returns that id and advances the counter by one; a valid store stays valid |
| Store.Database.InsertLocation | convex/mockData.ts:116-119 | appends the location under the next id, returns that id and advances the counter by one; a valid store stays valid |
| Store.Database.InsertChallenge | convex/mockData.ts:122-188 | appends the challenge under the next id, returns that id and advances the counter by one; a valid store stays valid |
| Store.Database.InsertHint | convex/mockData.ts:195-203 | appends the hint under the next id, returns that id and advances the counter by one; a valid store stays valid |
| MockData.SiteOf | convex/mockData.ts:124-125 | the site is the Western Wall, the Holy Sepulchre or the market exactly when the name is that site's name; any other name falls to the else-branches |
| MockData.FindChallenge | convex/mockData.ts:122-149 | no contract: the definition is the source's row expression with each ternary on the location name; its properties are stated by `FindDispatch`, `FindGuards` and `SeedFindRules` |
| MockData.AtLocationChallenge | convex/mockData.ts:152-188 | no contract: the definition is the source's row expression with each ternary on the location name; its properties are stated by `AtLocationDispatch`, `AtLocationGuards`, `SeedAtLocationRules` and `JerusalemAnswersInRange` |
| MockData.HasHint | convex/mockData.ts:191-194 | no contract: the definition is the source's condition on the location name; its truth condition is stated by `HintDispatch` |
| MockData.HintFor | convex/mockData.ts:195-203 | no contract: the definition is the source's hint row with each ternary on the location name; its fields are stated by `HintDispatch` and `SeedHints` |
| MockData.SeedStep | convex/mockData.ts:116-204 | no contract: the definition lists the rows of one iteration in insert order with consecutive ids; `SeedLocation` is proved to perform it, and `SeedStepFresh`, `WesternWallStep`, `HolySepulchreStep` and `MarketStep` state its rows |
| MockData.SeedLoop | convex/mockData.ts:115-205 | no contract: the definition is one `SeedStep` per array element, in array order; `SeedLocations` is proved to perform it, and `SeedLoopSnoc`, `SeedLoopFresh`, `SeedLoopCounts`, `SeedLoopLocations` and `JerusalemLoopRows` state its properties |
| MockData.Seed | convex/mockData.ts:3-209 | no contract: the definition is the header rows under ids n to n+5, then `SeedLoop` over the three locations from n+6; `SeedWith` is proved to perform it, and the `SeedProperties` lemmas state what it adds |
| MockData.SeedLoopSnoc | convex/mockData.ts:115 | the loop over one more element is the loop so far followed by one iteration on that element |
| MockData.SeedLoopFresh | convex/mockData.ts:115-205 | every id the loop hands out lies between the first free id and the final counter, rising in insertion order, in each of the three tables |
| MockData.SeedFresh | convex/mockData.ts:3-209 | every id one call hands out lies between the first free id and the final counter, rising in insertion order, in each of the seven tables |
| MockData.SeedKeepsAllocated | convex/mockData.ts:3-209 | if every table's ids lie below the first free id and rise, then after appending one call's rows they lie below the final counter and rise |
| MockData.SeedLocation | convex/mockData.ts:116-204 | one iteration appends the location, its find challenge, its at-location challenge and, for two names, a hint, under consecutive ids; the other tables are untouched |
| MockData.SeedLocations | convex/mockData.ts:115-205 | the loop appends the rows of every element in array order and leaves the counter at the loop specification's end id |
| MockData.SeedHeader | convex/mockData.ts:6-72 | inserts teacher, category, game and the three types under ids n to n+5; the game points at the teacher and category just inserted |
| MockData.SeedWith | convex/mockData.ts:3-209 | for any payload: each of the seven tables becomes its old rows followed by the call's rows, the returned id is the new game's, and the store stays valid |
| MockData.GenerateJerusalemGameMockData | convex/mockData.ts:3-209 | the routine with its own texts: the same appends and result, and the store stays valid |
| SeedProperties.FindDispatch | convex/mockData.ts:122-149 | for any name: the find challenge's type is photo exactly at the Holy Sepulchre and word game exactly elsewhere; every name but the Western Wall gets MAHANE YEHUDA; an image appears exactly at the Holy Sepulchre; the rules are 300 s, 150 points, accuracy 100 |
| SeedProperties.FindGuards | src/types.ts:223-245 | for any name: the find challenge is always a word game, never multiple choice, and a photo task exactly at the Holy Sepulchre |
| SeedProperties.AtLocationDispatch | convex/mockData.ts:152-188 | for any name: the at-location challenge is a photo task exactly at the market and multiple choice exactly elsewhere; options and a time limit exactly off the market; answer 1 everywhere; 250 points at the market, 100 elsewhere |
| SeedProperties.AtLocationGuards | src/types.ts:223-245 | for any name: the at-location challenge is multiple choice exactly off the market, a photo task exactly at the market, never a word game |
| SeedProperties.HintDispatch | convex/mockData.ts:191-204 | a hint is inserted exactly for the Western Wall and the Holy Sepulchre; it points at the find challenge, with penalty 30 and delay 5 at the Western Wall and 20 and 3 elsewhere |
| SeedProperties.SeedLoopCounts | convex/mockData.ts:115-205 | for any location array: one location and two challenges per element, at most one hint per element, and one id per row |
| SeedProperties.SeedLoopLocations | convex/mockData.ts:115-119 | for any location array: the i-th location row is the i-th element tagged with the game's id |
| SeedProperties.WesternWallStep | convex/mockData.ts:116-204 | the Western Wall iteration adds its location, two challenges and a hint on the find challenge under four consecutive ids |
| SeedProperties.HolySepulchreStep | convex/mockData.ts:116-204 | the Holy Sepulchre iteration adds its location, two challenges and a hint on the find challenge under four consecutive ids |
| SeedProperties.MarketStep | convex/mockData.ts:116-204 | the market iteration adds its location and two challenges under three consecutive ids, and no hint |
| SeedProperties.JerusalemLoopRows | convex/mockData.ts:75-205 | the loop over the three locations adds exactly the listed 3 locations, 6 challenges and 2 hints with their ids |
| SeedProperties.SeedCounts | convex/mockData.ts:3-209 | one call adds 1 teacher, 1 category, 1 game, 3 types, 3 locations, 6 challenges and 2 hints, and spends 17 ids |
| SeedProperties.SeedGameRow | convex/mockData.ts:21-44 | the game has join code JLMOLD and status published, points at this call's teacher and category, is public and open to late joins, runs from `now` for one week (604800000 ms), lasts 120, takes 1 to 10 players; the category's display order is 1 |
| SeedProperties.SeedLocationOrder | convex/mockData.ts:75-112 | the locations are the Western Wall, the Holy Sepulchre and the market in that order, all in the new game, with sequence orders 1, 2, 3; sequential visiting is required exactly for the first two |
| SeedProperties.SeedChallengeLinks | convex/mockData.ts:122-188 | challenge j points at location j/2, and is titled "Find <name>" when j is even and "<name> Challenge" when j is odd |
| SeedProperties.SeedChallengeTypes | convex/mockData.ts:47-72 | the type rows are named Multiple Choice, Photo Task and Word Game; the six challenges use word game, multiple choice, photo, multiple choice, word game and photo, by the ids of this call's type rows |
| SeedProperties.SeedHints | convex/mockData.ts:191-204 | two hints, on the Western Wall find challenge (30, 5) and on the Holy Sepulchre find challenge (20, 3) |
| SeedProperties.SeedAtLocationRules | convex/mockData.ts:152-188 | for any payload: the at-location contents, with the payload's temple and lamp option lists at the first two sites and no options at the market; 60 s and 100 points at the first two sites; no time limit and 250 points at the market; answer 1 throughout |
| SeedProperties.JerusalemAnswersInRange | convex/mockData.ts:166-177 | with the routine's own texts, both multiple-choice challenges have four options and answer 1 indexes into them, naming "The Second Temple" and "13" |
| SeedProperties.JerusalemOptions | convex/mockData.ts:166-176 | both option lists have four entries, and answer 1 is "The Second Temple" and "13" |
| SeedProperties.SeedFindRules | convex/mockData.ts:122-149 | the find contents: target word WESTERN WALL at the Western Wall and MAHANE YEHUDA at both other sites, an image only at the Holy Sepulchre, and rules 300 s, 150 points, accuracy 100 |
| SeedProperties.SeedGuards | src/types.ts:223-245 | the guard verdicts on the six challenges; the Holy Sepulchre find challenge is both a photo task and a word game, and the market task is a photo task only |
| SeedProperties.SeedIds | convex/mockData.ts:3-209 | the ids of every table, in insertion order: n for the teacher up to n+16 for the last challenge |
| SeedProperties.SeedParentsFirst | convex/mockData.ts:3-209 | every reference a new row holds is smaller than the row's own id, so the parent was inserted first |
| SeedProperties.SeedTwice | convex/mockData.ts:27 | a second call adds a second JLMOLD game under a larger id; nothing rejects the repeated code |

## Left out

- Uniqueness of the join code is not enforced: `convex/schema.ts:34` only declares a lookup index `by_joinCode`, and the routine inserts without looking up an existing game with that code. A second call therefore succeeds and adds a second game with the same code (`SeedTwice`).
- Failed inserts, schema validation and partial failure: the store's validators and its transactions belong to the hosting platform and are not part of this model, so every insert succeeds.
- `Date.now()`: each call reads the clock several times. The model takes one reading, `now`, for all of them, so `endTime` is exactly `startTime` plus one week.
- Ids: the platform's opaque per-table ids are modelled as natural numbers from one counter shared by all tables. Only their freshness and order are stated.
- The `_creationTime` system field is not modelled. The `_id` field is the `id` of a `Doc`, which pairs it with the row.
- Latitude and longitude are `real`. Other `v.number()` fields are `int`, and timestamps are `nat`. Floating-point rounding is not modelled.
- `v.any()` fields (validation rules, UI schema, default settings, metadata, answers, progress) hold a small `Json` datatype.
- The `[key: string]: any` extension of the content bag (`src/types.ts:153`) is not modelled; the content holds the five named fields only.
- The store tables the routine never writes (game media, teams, players, sessions, session states, submissions, chat messages) exist only as row datatypes in `Types`, with no table in `Database`.
- The `mutation` wrapper, `async`/`await` and the hosting runtime are not modelled; the inserts run in sequence.
- The React front end (`src/App.tsx`, `src/main.tsx`) only calls the routine from a button and tracks a loading flag; it is not part of this model.
