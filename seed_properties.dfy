/**
 * What one call of the seed routine adds, stated row by row.
 *
 * - The dispatch lemmas (`FindDispatch`, `FindGuards`, `AtLocationDispatch`,
 *   `AtLocationGuards`, `HintDispatch`) hold for any location name and any
 *   payload.
 * - The loop lemmas (`SeedLoopCounts`, `SeedLoopLocations`) hold for any
 *   array of locations and any payload.
 * - `JerusalemOptions` and `JerusalemAnswersInRange` are about
 *   `JerusalemPayload` alone.
 * - The rest are about the routine's own three locations and hold for every
 *   payload, so in particular for `JerusalemPayload`.
 */
module SeedProperties {
  import opened Wrappers
  import opened Types
  import opened Store
  import opened MockData

  /** The verdicts of the three guards on `c`. */
  predicate Classified(c: Challenge, multipleChoice: bool, photo: bool, wordGame: bool)
  {
    && IsMultipleChoiceChallenge(c) == multipleChoice
    && IsPhotoChallenge(c) == photo
    && IsWordGameChallenge(c) == wordGame
  }

  // Dispatch on the location name, for any name

  /**
   * The find challenge is a photo task exactly at the Holy Sepulchre and a
   * word game everywhere else; every name but the Western Wall, including
   * one outside the three, gets the market's target word.
   */
  lemma FindDispatch(p: Payload, name: string, locationId: Id, types: TypeIds, now: Timestamp)
    requires types.photo != types.wordGame
    ensures var c := FindChallenge(p, name, locationId, types, now);
      && c.locationId == locationId
      && c.title == "Find " + name
      && (c.typeId == types.photo <==> name == HolySepulchre)
      && (c.typeId == types.wordGame <==> name != HolySepulchre)
      && c.content.targetWord == Some(if name == WesternWall then WesternWallWord else MahaneYehudaWord)
      && (c.content.imageUrl.Some? <==> name == HolySepulchre)
      && c.completionRules == CompletionRules(Some(300), 150, Some(100))
  {
  }

  /** The guards' verdicts on a find challenge: always a word game, never multiple choice, a photo task exactly at the Holy Sepulchre. */
  lemma FindGuards(p: Payload, name: string, locationId: Id, types: TypeIds, now: Timestamp)
    ensures var c := FindChallenge(p, name, locationId, types, now);
      Classified(c, false, name == HolySepulchre, true)
  {
  }

  /**
   * The at-location challenge is a photo task exactly at the market and
   * multiple choice everywhere else, with a time limit exactly when it is
   * multiple choice.
   */
  lemma AtLocationDispatch(p: Payload, name: string, locationId: Id, types: TypeIds, now: Timestamp)
    requires types.photo != types.multipleChoice
    ensures var c := AtLocationChallenge(p, name, locationId, types, now);
      && c.locationId == locationId
      && c.title == name + " Challenge"
      && (c.typeId == types.photo <==> name == MahaneYehuda)
      && (c.typeId == types.multipleChoice <==> name != MahaneYehuda)
      && (c.content.options.Some? <==> name != MahaneYehuda)
      && c.content.correctOption == Some(1)
      && (c.completionRules.timeLimit.Some? <==> name != MahaneYehuda)
      && c.completionRules.points == (if name == MahaneYehuda then 250 else 100)
  {
  }

  /**
   * The guards' verdicts on an at-location challenge: multiple choice
   * everywhere but the market, a photo task there, never a word game. The
   * photo verdict comes from the content alone, not from the type id.
   */
  lemma AtLocationGuards(p: Payload, name: string, locationId: Id, types: TypeIds, now: Timestamp)
    ensures var c := AtLocationChallenge(p, name, locationId, types, now);
      Classified(c, name != MahaneYehuda, name == MahaneYehuda, false)
  {
  }

  /** A hint is inserted exactly for the Western Wall and the Holy Sepulchre, with the Western Wall's penalty and delay there and the other pair elsewhere. */
  lemma HintDispatch(p: Payload, name: string, findChallengeId: Id)
    ensures HasHint(name) <==> name == WesternWall || name == HolySepulchre
    ensures var h := HintFor(p, name, findChallengeId);
      && h.challengeId == findChallengeId
      && (h.pointsPenalty, h.unlockDelayMinutes) == (if name == WesternWall then (30, 5) else (20, 3))
  {
  }

  // The loop over any array

  /** The loop adds one location and two challenges per element, at most one hint each, and spends one id per row. */
  lemma {:induction false} SeedLoopCounts(p: Payload, locs: seq<LocationSeed>, gameId: Id, types: TypeIds, next: Id, now: Timestamp)
    ensures var r := SeedLoop(p, locs, gameId, types, next, now);
      && |r.locations| == |locs|
      && |r.challenges| == 2 * |locs|
      && |r.hints| <= |locs|
      && r.next == next + |r.locations| + |r.challenges| + |r.hints|
    decreases |locs|
  {
    if locs != [] {
      SeedLoopCounts(p, locs[..|locs| - 1], gameId, types, next, now);
    }
  }

  /** The loop inserts the array's elements in array order, each tagged with the game's id. */
  lemma {:induction false} SeedLoopLocations(p: Payload, locs: seq<LocationSeed>, gameId: Id, types: TypeIds, next: Id, now: Timestamp)
    ensures var r := SeedLoop(p, locs, gameId, types, next, now);
      && |r.locations| == |locs|
      && forall i :: 0 <= i < |locs| ==> r.locations[i].value == LocationRow(gameId, locs[i])
    decreases |locs|
  {
    if locs != [] {
      var prefix := locs[..|locs| - 1];
      SeedLoopLocations(p, prefix, gameId, types, next, now);
      var done := SeedLoop(p, prefix, gameId, types, next, now);
      var r := SeedLoop(p, locs, gameId, types, next, now);
      assert r.locations == done.locations + [Doc(done.next, LocationRow(gameId, locs[|locs| - 1]))];
      forall i | 0 <= i < |locs|
        ensures r.locations[i].value == LocationRow(gameId, locs[i])
      {
        if i < |prefix| {
          assert r.locations[i] == done.locations[i];
          assert prefix[i] == locs[i];
        }
      }
    }
  }

  // The routine's own three locations

  /** The loop's first step: the Western Wall gets a hint. */
  lemma WesternWallStep(p: Payload, gameId: Id, types: TypeIds, next: Id, now: Timestamp)
    ensures SeedStep(p, JerusalemLocations[0], gameId, types, next, now) == Seeded(
      [Doc(next, LocationRow(gameId, JerusalemLocations[0]))],
      [Doc(next + 1, FindChallenge(p, WesternWall, next, types, now)),
       Doc(next + 2, AtLocationChallenge(p, WesternWall, next, types, now))],
      [Doc(next + 3, HintFor(p, WesternWall, next + 1))],
      next + 4)
  {
    assert HasHint(JerusalemLocations[0].name);
  }

  /** The loop's second step: the Holy Sepulchre gets a hint. */
  lemma HolySepulchreStep(p: Payload, gameId: Id, types: TypeIds, next: Id, now: Timestamp)
    ensures SeedStep(p, JerusalemLocations[1], gameId, types, next, now) == Seeded(
      [Doc(next, LocationRow(gameId, JerusalemLocations[1]))],
      [Doc(next + 1, FindChallenge(p, HolySepulchre, next, types, now)),
       Doc(next + 2, AtLocationChallenge(p, HolySepulchre, next, types, now))],
      [Doc(next + 3, HintFor(p, HolySepulchre, next + 1))],
      next + 4)
  {
    assert HasHint(JerusalemLocations[1].name);
  }

  /** The loop's last step: the market gets no hint. */
  lemma MarketStep(p: Payload, gameId: Id, types: TypeIds, next: Id, now: Timestamp)
    ensures SeedStep(p, JerusalemLocations[2], gameId, types, next, now) == Seeded(
      [Doc(next, LocationRow(gameId, JerusalemLocations[2]))],
      [Doc(next + 1, FindChallenge(p, MahaneYehuda, next, types, now)),
       Doc(next + 2, AtLocationChallenge(p, MahaneYehuda, next, types, now))],
      [],
      next + 3)
  {
    assert !HasHint(JerusalemLocations[2].name);
  }

  /** The three locations in array order, with their challenges and hints. */
  lemma JerusalemLoopRows(p: Payload, gameId: Id, types: TypeIds, next: Id, now: Timestamp)
    ensures SeedLoop(p, JerusalemLocations, gameId, types, next, now) == Seeded(
      [Doc(next, LocationRow(gameId, JerusalemLocations[0])),
       Doc(next + 4, LocationRow(gameId, JerusalemLocations[1])),
       Doc(next + 8, LocationRow(gameId, JerusalemLocations[2]))],
      [Doc(next + 1, FindChallenge(p, WesternWall, next, types, now)),
       Doc(next + 2, AtLocationChallenge(p, WesternWall, next, types, now)),
       Doc(next + 5, FindChallenge(p, HolySepulchre, next + 4, types, now)),
       Doc(next + 6, AtLocationChallenge(p, HolySepulchre, next + 4, types, now)),
       Doc(next + 9, FindChallenge(p, MahaneYehuda, next + 8, types, now)),
       Doc(next + 10, AtLocationChallenge(p, MahaneYehuda, next + 8, types, now))],
      [Doc(next + 3, HintFor(p, WesternWall, next + 1)),
       Doc(next + 7, HintFor(p, HolySepulchre, next + 5))],
      next + 11)
  {
    var locs := JerusalemLocations;
    assert locs[..0] == [];
    SeedLoopSnoc(p, locs, 0, gameId, types, next, now);
    WesternWallStep(p, gameId, types, next, now);
    SeedLoopSnoc(p, locs, 1, gameId, types, next, now);
    HolySepulchreStep(p, gameId, types, next + 4, now);
    SeedLoopSnoc(p, locs, 2, gameId, types, next, now);
    MarketStep(p, gameId, types, next + 8, now);
    assert locs[..3] == locs;
  }

  /** One call adds one teacher, category and game, three types, three locations, six challenges and two hints: 17 rows, one id each. */
  lemma SeedCounts(p: Payload, n: Id, now: Timestamp)
    ensures var s := Seed(p, n, now);
      && |s.teachers| == 1 && |s.categories| == 1 && |s.games| == 1
      && |s.challengeTypes| == 3 && |s.locations| == 3 && |s.challenges| == 6 && |s.hints| == 2
      && s.next == n + 17
  {
    JerusalemLoopRows(p, n + 2, TypeIds(n + 3, n + 4, n + 5), n + 6, now);
  }

  /** The game row: JLMOLD, published, a week from `now`, and pointing at this call's teacher and category. */
  lemma SeedGameRow(p: Payload, n: Id, now: Timestamp)
    ensures var s := Seed(p, n, now);
      var g := s.games[0].value;
      && |s.games| == 1 && s.games[0].id == s.gameId
      && g.joinCode == "JLMOLD"
      && ParseGameStatus(g.status) == Some(Published)
      && g.teacherId == s.teachers[0].id
      && g.categoryId == Some(s.categories[0].id)
      && g.privacySettings == PrivacySettings(true, true)
      && g.startTime == Some(now) && g.endTime == Some(now + 604800000)
      && g.estimatedDuration == 120
      && g.playerCountMin == Some(1) && g.playerCountMax == Some(10)
      && s.categories[0].value.displayOrder == 1
  {
    GameStatusRoundTrip(Published);
  }

  /** The locations of the game, in visiting order 1, 2, 3; only the last may be visited out of order. */
  lemma SeedLocationOrder(p: Payload, n: Id, now: Timestamp)
    ensures var s := Seed(p, n, now);
      && |s.locations| == 3
      && s.locations[0].value.name == WesternWall
      && s.locations[1].value.name == HolySepulchre
      && s.locations[2].value.name == MahaneYehuda
      && forall i :: 0 <= i < 3 ==>
           && s.locations[i].value.gameId == s.gameId
           && s.locations[i].value.sequenceOrder == i + 1
           && (s.locations[i].value.settings.requireSequential <==> i < 2)
  {
    SeedCounts(p, n, now);
    SeedLoopLocations(p, JerusalemLocations, n + 2, TypeIds(n + 3, n + 4, n + 5), n + 6, now);
  }

  /** Each location is followed by its find challenge and then its at-location challenge, both pointing at it. */
  lemma SeedChallengeLinks(p: Payload, n: Id, now: Timestamp)
    ensures var s := Seed(p, n, now);
      && |s.locations| == 3 && |s.challenges| == 6
      && forall j :: 0 <= j < 6 ==>
           && s.challenges[j].value.locationId == s.locations[j / 2].id
           && s.challenges[j].value.title ==
                (if j % 2 == 0 then "Find " + s.locations[j / 2].value.name
                 else s.locations[j / 2].value.name + " Challenge")
  {
    JerusalemLoopRows(p, n + 2, TypeIds(n + 3, n + 4, n + 5), n + 6, now);
  }

  /**
   * Type dispatch: the find challenges are word games except the photo task
   * at the Holy Sepulchre; the at-location challenges are multiple choice
   * except the photo task at the market. Each `typeId` is the id of a type
   * row of the same call, named as stated.
   */
  lemma SeedChallengeTypes(p: Payload, n: Id, now: Timestamp)
    ensures var s := Seed(p, n, now);
      && |s.challengeTypes| == 3 && |s.challenges| == 6
      && s.challengeTypes[0].value.name == MultipleChoiceName
      && s.challengeTypes[1].value.name == PhotoName
      && s.challengeTypes[2].value.name == WordGameName
      && s.challenges[0].value.typeId == s.challengeTypes[2].id
      && s.challenges[1].value.typeId == s.challengeTypes[0].id
      && s.challenges[2].value.typeId == s.challengeTypes[1].id
      && s.challenges[3].value.typeId == s.challengeTypes[0].id
      && s.challenges[4].value.typeId == s.challengeTypes[2].id
      && s.challenges[5].value.typeId == s.challengeTypes[1].id
  {
    JerusalemLoopRows(p, n + 2, TypeIds(n + 3, n + 4, n + 5), n + 6, now);
  }

  /** Two hints, on the find challenges of the Western Wall (30 points, 5 minutes) and the Holy Sepulchre (20, 3). */
  lemma SeedHints(p: Payload, n: Id, now: Timestamp)
    ensures var s := Seed(p, n, now);
      && |s.hints| == 2 && |s.challenges| == 6
      && s.hints[0].value == Hint(s.challenges[0].id, p.westernWallHint, 30, 5)
      && s.hints[1].value == Hint(s.challenges[2].id, p.holySepulchreHint, 20, 3)
  {
    JerusalemLoopRows(p, n + 2, TypeIds(n + 3, n + 4, n + 5), n + 6, now);
  }

  /**
   * The at-location challenges: at the Western Wall and the Holy Sepulchre,
   * multiple choice over the payload's option list with answer 1, 60
   * seconds, 100 points; at the
   * market a photo task with no options and no time limit for 250 points,
   * still carrying answer 1.
   */
  lemma SeedAtLocationRules(p: Payload, n: Id, now: Timestamp)
    ensures var s := Seed(p, n, now);
      && |s.challenges| == 6
      && s.challenges[1].value.content == ChallengeContent(Some(p.westernWallQuestion), Some(p.templeOptions), Some(1), None, None)
      && s.challenges[3].value.content == ChallengeContent(Some(p.lampsQuestion), Some(p.lampOptions), Some(1), None, None)
      && s.challenges[5].value.content == ChallengeContent(Some(p.spicesQuestion), None, Some(1), None, Some(p.spicesImage))
      && s.challenges[1].value.completionRules == CompletionRules(Some(60), 100, None)
      && s.challenges[3].value.completionRules == CompletionRules(Some(60), 100, None)
      && s.challenges[5].value.completionRules == CompletionRules(None, 250, None)
  {
    JerusalemLoopRows(p, n + 2, TypeIds(n + 3, n + 4, n + 5), n + 6, now);
  }

  /** The routine's option lists have four entries each, and answer 1 is the second of them. */
  lemma JerusalemOptions()
    ensures |JerusalemPayload.templeOptions| == 4 && JerusalemPayload.templeOptions[1] == "The Second Temple"
    ensures |JerusalemPayload.lampOptions| == 4 && JerusalemPayload.lampOptions[1] == "13"
  {
  }

  /**
   * With the routine's own texts, both multiple-choice challenges offer four
   * options and their answer 1 indexes into them: "The Second Temple" at the
   * Western Wall and "13" at the Holy Sepulchre.
   */
  lemma JerusalemAnswersInRange(n: Id, now: Timestamp)
    ensures var s := Seed(JerusalemPayload, n, now);
      && |s.challenges| == 6
      && var wall := s.challenges[1].value.content;
      && var lamps := s.challenges[3].value.content;
      && wall.options.Some? && wall.correctOption.Some?
      && |wall.options.value| == 4 && 0 <= wall.correctOption.value < |wall.options.value|
      && wall.options.value[wall.correctOption.value] == "The Second Temple"
      && lamps.options.Some? && lamps.correctOption.Some?
      && |lamps.options.value| == 4 && 0 <= lamps.correctOption.value < |lamps.options.value|
      && lamps.options.value[lamps.correctOption.value] == "13"
  {
    SeedAtLocationRules(JerusalemPayload, n, now);
    JerusalemOptions();
  }

  /**
   * The find challenges: 300 seconds, 150 points, accuracy 100; target word
   * WESTERN WALL at the Western Wall and MAHANE YEHUDA at the other two
   * (the Holy Sepulchre included); an image only at the Holy Sepulchre.
   */
  lemma SeedFindRules(p: Payload, n: Id, now: Timestamp)
    ensures var s := Seed(p, n, now);
      && |s.challenges| == 6
      && s.challenges[0].value.content == ChallengeContent(Some(p.westernWallRiddle), None, None, Some("WESTERN WALL"), None)
      && s.challenges[2].value.content == ChallengeContent(Some(p.holySepulchreRiddle), None, None, Some("MAHANE YEHUDA"), Some(p.entranceImage))
      && s.challenges[4].value.content == ChallengeContent(Some(p.marketRiddle), None, None, Some("MAHANE YEHUDA"), None)
      && forall j :: 0 <= j < 6 && j % 2 == 0 ==> s.challenges[j].value.completionRules == CompletionRules(Some(300), 150, Some(100))
  {
    JerusalemLoopRows(p, n + 2, TypeIds(n + 3, n + 4, n + 5), n + 6, now);
  }

  /**
   * How the client's guards classify the six challenges: the Holy
   * Sepulchre's find challenge passes both the photo and the word-game
   * guard, and the market's photo task passes the photo guard only.
   */
  lemma SeedGuards(p: Payload, n: Id, now: Timestamp)
    ensures var s := Seed(p, n, now);
      && |s.challenges| == 6
      && Classified(s.challenges[0].value, false, false, true)
      && Classified(s.challenges[1].value, true, false, false)
      && Classified(s.challenges[2].value, false, true, true)
      && Classified(s.challenges[3].value, true, false, false)
      && Classified(s.challenges[4].value, false, false, true)
      && Classified(s.challenges[5].value, false, true, false)
  {
    SeedFindRules(p, n, now);
    SeedAtLocationRules(p, n, now);
  }

  /** The ids one call hands out, in insertion order: each location is followed by its challenges and hint. */
  lemma SeedIds(p: Payload, n: Id, now: Timestamp)
    ensures var s := Seed(p, n, now);
      && IdsOf(s.teachers) == [n]
      && IdsOf(s.categories) == [n + 1]
      && IdsOf(s.games) == [n + 2]
      && IdsOf(s.challengeTypes) == [n + 3, n + 4, n + 5]
      && IdsOf(s.locations) == [n + 6, n + 10, n + 14]
      && IdsOf(s.challenges) == [n + 7, n + 8, n + 11, n + 12, n + 15, n + 16]
      && IdsOf(s.hints) == [n + 9, n + 13]
  {
    JerusalemLoopRows(p, n + 2, TypeIds(n + 3, n + 4, n + 5), n + 6, now);
  }

  /**
   * Parents before children: every reference a row of the call holds is
   * smaller than the referring row's own id, so the referenced row was
   * inserted first. Which row each reference names is stated by
   * `SeedGameRow`, `SeedLocationOrder`, `SeedChallengeLinks`,
   * `SeedChallengeTypes` and `SeedHints`.
   */
  lemma SeedParentsFirst(p: Payload, n: Id, now: Timestamp)
    ensures var s := Seed(p, n, now);
      && |s.games| == 1 && |s.locations| == 3 && |s.challenges| == 6 && |s.hints| == 2
      && s.games[0].value.teacherId < s.games[0].id
      && s.games[0].value.categoryId.Some? && s.games[0].value.categoryId.value < s.games[0].id
      && (forall i :: 0 <= i < 3 ==> s.locations[i].value.gameId < s.locations[i].id)
      && (forall j :: 0 <= j < 6 ==>
            s.challenges[j].value.locationId < s.challenges[j].id && s.challenges[j].value.typeId < s.challenges[j].id)
      && (forall k :: 0 <= k < 2 ==> s.hints[k].value.challengeId < s.hints[k].id)
  {
    JerusalemLoopRows(p, n + 2, TypeIds(n + 3, n + 4, n + 5), n + 6, now);
  }

  /**
   * A second call on the store the first one left adds a second game with the
   * same join code under a new id: nothing rejects the repeated code.
   */
  lemma SeedTwice(p: Payload, n: Id, now: Timestamp, later: Timestamp)
    ensures var first := Seed(p, n, now);
      var second := Seed(p, first.next, later);
      && first.games[0].value.joinCode == JoinCode
      && second.games[0].value.joinCode == JoinCode
      && first.gameId < second.gameId
  {
    SeedCounts(p, n, now);
  }
}
