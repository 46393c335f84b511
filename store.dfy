/**
 * The document store the seed routine writes to: one append-only table for
 * each schema table the routine inserts into, and a counter that hands out
 * fresh document ids. Each insert appends one row under the next id and
 * advances the counter; it demands nothing of the table's contents.
 */
module Store {
  import opened Types

  /** A stored document: the id the store assigned and the row the caller gave. */
  datatype Doc<T> = Doc(id: Id, value: T)

  /** The ids of a table, in insertion order. */
  function IdsOf<T>(table: seq<Doc<T>>): seq<Id>
  {
    seq(|table|, i requires 0 <= i < |table| => table[i].id)
  }

  /** The ids of `rows` lie in the interval `[lo, hi)` and grow strictly in insertion order. */
  ghost predicate FreshIds<T>(rows: seq<Doc<T>>, lo: Id, hi: Id)
  {
    && lo <= hi
    && (forall i :: 0 <= i < |rows| ==> lo <= rows[i].id < hi)
    && (forall i, j :: 0 <= i < j < |rows| ==> rows[i].id < rows[j].id)
  }

  /** Every id of `table` was handed out before `next`, in increasing order; hence ids are distinct. */
  ghost predicate Allocated<T>(table: seq<Doc<T>>, next: Id)
  {
    FreshIds(table, 0, next)
  }

  /** Two runs of fresh rows, the second starting where the first ends, form one run. */
  lemma FreshIdsConcat<T>(a: seq<Doc<T>>, b: seq<Doc<T>>, lo: Id, mid: Id, hi: Id)
    requires FreshIds(a, lo, mid)
    requires FreshIds(b, mid, hi)
    ensures FreshIds(a + b, lo, hi)
  {
    var t := a + b;
    forall i | 0 <= i < |t|
      ensures lo <= t[i].id < hi
    {
      if i < |a| {
        assert t[i] == a[i];
      } else {
        assert t[i] == b[i - |a|];
      }
    }
    forall i, j | 0 <= i < j < |t|
      ensures t[i].id < t[j].id
    {
      if j < |a| {
      } else if i < |a| {
        assert t[j] == b[j - |a|];
      } else {
        assert t[i] == b[i - |a|] && t[j] == b[j - |a|];
      }
    }
  }

  /** A run of fresh ids is fresh in any wider interval. */
  lemma FreshIdsWiden<T>(rows: seq<Doc<T>>, lo: Id, hi: Id, lo': Id, hi': Id)
    requires FreshIds(rows, lo, hi)
    requires lo' <= lo && hi <= hi'
    ensures FreshIds(rows, lo', hi')
  {
  }

  /** Appending one row under the next id keeps a table allocated under the advanced counter. */
  lemma AllocatedSnoc<T>(table: seq<Doc<T>>, next: Id, row: T)
    requires Allocated(table, next)
    ensures Allocated(table + [Doc(next, row)], next + 1)
  {
    FreshIdsConcat(table, [Doc(next, row)], 0, next, next + 1);
  }

  class Database {
    var teachers: seq<Doc<Teacher>>
    var games: seq<Doc<Game>>
    var categories: seq<Doc<Category>>
    var locations: seq<Doc<Location>>
    var challenges: seq<Doc<Challenge>>
    var challengeTypes: seq<Doc<ChallengeType>>
    var hints: seq<Doc<Hint>>
    /** The id the next insert will hand out. */
    var nextId: Id

    /** Every stored id was handed out by the counter, and each table is in id order. */
    ghost predicate Valid()
      reads this
    {
      && Allocated(teachers, nextId)
      && Allocated(games, nextId)
      && Allocated(categories, nextId)
      && Allocated(locations, nextId)
      && Allocated(challenges, nextId)
      && Allocated(challengeTypes, nextId)
      && Allocated(hints, nextId)
    }

    /** An empty store. */
    constructor ()
      ensures Valid() && nextId == 0
      ensures teachers == [] && games == [] && categories == []
      ensures locations == [] && challenges == [] && challengeTypes == [] && hints == []
    {
      teachers, games, categories := [], [], [];
      locations, challenges, challengeTypes, hints := [], [], [], [];
      nextId := 0;
    }

    method InsertTeacher(row: Teacher) returns (id: Id)
      modifies this`teachers, this`nextId
      ensures id == old(nextId) && nextId == id + 1
      ensures teachers == old(teachers) + [Doc(id, row)]
      ensures old(Valid()) ==> Valid()
    {
      id := nextId;
      if Valid() {
        AllocatedSnoc(teachers, id, row);
      }
      teachers := teachers + [Doc(id, row)];
      nextId := nextId + 1;
    }

    method InsertCategory(row: Category) returns (id: Id)
      modifies this`categories, this`nextId
      ensures id == old(nextId) && nextId == id + 1
      ensures categories == old(categories) + [Doc(id, row)]
      ensures old(Valid()) ==> Valid()
    {
      id := nextId;
      if Valid() {
        AllocatedSnoc(categories, id, row);
      }
      categories := categories + [Doc(id, row)];
      nextId := nextId + 1;
    }

    /** Appends a game. The join-code index is a lookup index only: no uniqueness is checked. */
    method InsertGame(row: Game) returns (id: Id)
      modifies this`games, this`nextId
      ensures id == old(nextId) && nextId == id + 1
      ensures games == old(games) + [Doc(id, row)]
      ensures old(Valid()) ==> Valid()
    {
      id := nextId;
      if Valid() {
        AllocatedSnoc(games, id, row);
      }
      games := games + [Doc(id, row)];
      nextId := nextId + 1;
    }

    method InsertChallengeType(row: ChallengeType) returns (id: Id)
      modifies this`challengeTypes, this`nextId
      ensures id == old(nextId) && nextId == id + 1
      ensures challengeTypes == old(challengeTypes) + [Doc(id, row)]
      ensures old(Valid()) ==> Valid()
    {
      id := nextId;
      if Valid() {
        AllocatedSnoc(challengeTypes, id, row);
      }
      challengeTypes := challengeTypes + [Doc(id, row)];
      nextId := nextId + 1;
    }

    method InsertLocation(row: Location) returns (id: Id)
      modifies this`locations, this`nextId
      ensures id == old(nextId) && nextId == id + 1
      ensures locations == old(locations) + [Doc(id, row)]
      ensures old(Valid()) ==> Valid()
    {
      id := nextId;
      if Valid() {
        AllocatedSnoc(locations, id, row);
      }
      locations := locations + [Doc(id, row)];
      nextId := nextId + 1;
    }

    method InsertChallenge(row: Challenge) returns (id: Id)
      modifies this`challenges, this`nextId
      ensures id == old(nextId) && nextId == id + 1
      ensures challenges == old(challenges) + [Doc(id, row)]
      ensures old(Valid()) ==> Valid()
    {
      id := nextId;
      if Valid() {
        AllocatedSnoc(challenges, id, row);
      }
      challenges := challenges + [Doc(id, row)];
      nextId := nextId + 1;
    }

    method InsertHint(row: Hint) returns (id: Id)
      modifies this`hints, this`nextId
      ensures id == old(nextId) && nextId == id + 1
      ensures hints == old(hints) + [Doc(id, row)]
      ensures old(Valid()) ==> Valid()
    {
      id := nextId;
      if Valid() {
        AllocatedSnoc(hints, id, row);
      }
      hints := hints + [Doc(id, row)];
      nextId := nextId + 1;
    }
  }
}
