/** The rating store of database.js: a `songs` table keyed by `id`, a `ratings` table
    whose UNIQUE `song_id` references a song, the lazily opened handle, and the query
    builder of `getAllRatings`. SQLite itself is abstracted: tables are maps, the
    schema's constraints are the `TablesValid` invariant, and `CURRENT_TIMESTAMP` is a
    clock value passed in by the caller. */
module Database {
  import opened Wrappers
  import opened Strings

  /** A row of `songs`. */
  datatype Song = Song(id: string, title: string, artist: string, album: string,
                       duration: int, imageUrl: string)

  /** A row of `ratings`. `song_id` is UNIQUE, so the table is a map keyed by it. */
  datatype Rating = Rating(id: nat, songId: string, score: int, createdAt: nat)

  /** How a write statement ends: it succeeds, or a constraint aborts it and the
      tables are left as they were. */
  datatype WriteResult = Written | CheckViolation | ForeignKeyViolation

  /** `Math.round`: the nearest integer, halves rounded up. */
  function Round(x: real): (r: int)
    ensures r as real <= x + 0.5 < r as real + 1.0
  {
    (x + 0.5).Floor
  }

  /** Rounding leaves an integer unchanged. */
  lemma RoundOfInteger(n: int)
    ensures Round(n as real) == n
  {
  }

  /** A value in [0, 10] rounds into [0, 10]. */
  lemma RoundInRange(x: real)
    requires 0.0 <= x <= 10.0
    ensures 0 <= Round(x) <= 10
  {
  }

  // ----- The schema's constraints -----

  /** PRIMARY KEY on `songs.id`; UNIQUE `song_id`, CHECK(score BETWEEN 0 AND 10) and
      the foreign key on `ratings`; AUTOINCREMENT ids that are distinct and never
      above `lastRowId`, the largest id handed out to an inserted row. */
  ghost predicate TablesValid(songs: map<string, Song>, ratings: map<string, Rating>, lastRowId: nat) {
    (forall id :: id in songs ==> songs[id].id == id)
    && (forall k :: k in ratings ==>
          ratings[k].songId == k && k in songs && 0 <= ratings[k].score <= 10
          && 1 <= ratings[k].id <= lastRowId)
    && (forall k1, k2 :: k1 in ratings && k2 in ratings && k1 != k2 ==> ratings[k1].id != ratings[k2].id)
  }

  /** How `addRating`'s statement ends for a rounded score: the CHECK constraint is
      tested on the new row first, then the foreign key. */
  function RateOutcome(songs: map<string, Song>, songId: string, score: int): (r: WriteResult)
    ensures r == Written <==> 0 <= score <= 10 && songId in songs
    ensures r == CheckViolation <==> !(0 <= score <= 10)
  {
    if !(0 <= score <= 10) then CheckViolation
    else if songId !in songs then ForeignKeyViolation
    else Written
  }

  /** The `ratings` table after a successful `INSERT ... ON CONFLICT(song_id) DO UPDATE`.
      `newId` is the rowid AUTOINCREMENT chooses for an inserted row: SQLite promises
      only that it exceeds every id handed out before, not that it is the next one. */
  function Upserted(ratings: map<string, Rating>, newId: nat, songId: string, score: int, now: nat): map<string, Rating> {
    if songId in ratings then ratings[songId := ratings[songId].(score := score, createdAt := now)]
    else ratings[songId := Rating(newId, songId, score, now)]
  }

  /** The largest id handed out to a row after the same statement: only an inserted
      row takes the new id. */
  function LastIdAfter(ratings: map<string, Rating>, lastRowId: nat, newId: nat, songId: string): nat {
    if songId in ratings then lastRowId else newId
  }

  /** Re-rating a song updates its score and time in place: same row id, same set of
      rated songs, every other rating untouched. */
  lemma RerateKeepsRow(ratings: map<string, Rating>, newId: nat, songId: string, score: int, now: nat)
    requires songId in ratings
    ensures var r := Upserted(ratings, newId, songId, score, now);
      r.Keys == ratings.Keys && |r| == |ratings|
      && r[songId] == Rating(ratings[songId].id, ratings[songId].songId, score, now)
      && (forall k :: k in ratings && k != songId ==> r[k] == ratings[k])
  {
    var r := Upserted(ratings, newId, songId, score, now);
    assert r.Keys == ratings.Keys;
  }

  /** Rating a song for the first time adds exactly one row, whose id is larger than
      that of every row already there. */
  lemma FirstRatingAddsRow(songs: map<string, Song>, ratings: map<string, Rating>, lastRowId: nat,
                           newId: nat, songId: string, score: int, now: nat)
    requires TablesValid(songs, ratings, lastRowId) && lastRowId < newId
    requires songId !in ratings
    ensures var r := Upserted(ratings, newId, songId, score, now);
      r.Keys == ratings.Keys + {songId} && |r| == |ratings| + 1
      && r[songId] == Rating(newId, songId, score, now)
      && (forall k :: k in ratings ==> r[k] == ratings[k] && r[k].id < r[songId].id)
  {
  }

  /** A successful `addRating` keeps every constraint. */
  lemma UpsertKeepsTablesValid(songs: map<string, Song>, ratings: map<string, Rating>, lastRowId: nat,
                               newId: nat, songId: string, score: int, now: nat)
    requires TablesValid(songs, ratings, lastRowId) && lastRowId < newId
    requires RateOutcome(songs, songId, score) == Written
    ensures TablesValid(songs, Upserted(ratings, newId, songId, score, now), LastIdAfter(ratings, lastRowId, newId, songId))
  {
  }

  /** `addSong` replaces at most one song and never removes one, so the foreign key
      still holds. */
  lemma AddSongKeepsTablesValid(songs: map<string, Song>, ratings: map<string, Rating>, lastRowId: nat, song: Song)
    requires TablesValid(songs, ratings, lastRowId)
    ensures TablesValid(songs[song.id := song], ratings, lastRowId)
  {
  }

  /** `deleteRating` removes one rating and keeps every constraint. */
  lemma DeleteKeepsTablesValid(songs: map<string, Song>, ratings: map<string, Rating>, lastRowId: nat, songId: string)
    requires TablesValid(songs, ratings, lastRowId)
    ensures TablesValid(songs, ratings - {songId}, lastRowId)
  {
  }

  /** `getExistingRating`: the stored score, or null. `|| null` also turns a stored
      score of 0 into null. */
  function ExistingScore(ratings: map<string, Rating>, songId: string): (r: Option<int>)
    ensures r.None? <==> songId !in ratings || ratings[songId].score == 0
    ensures r.Some? ==> r.value == ratings[songId].score && r.value != 0
  {
    if songId in ratings && ratings[songId].score != 0 then Some(ratings[songId].score) else None
  }

  // ----- getAllRatings: filters -----

  /** The filters argument. An empty text filter is falsy and adds no clause; an
      absent bound is `None`. */
  datatype Filters = Filters(title: string, artist: string, album: string,
                             minScore: Option<int>, maxScore: Option<int>)

  /** A row of the `ratings JOIN songs` result. */
  datatype JoinedRow = JoinedRow(ratingId: nat, songId: string, score: int, createdAt: nat,
                                 title: string, artist: string, album: string, image: string)

  function JoinOf(r: Rating, s: Song): JoinedRow {
    JoinedRow(r.id, r.songId, r.score, r.createdAt, s.title, s.artist, s.album, s.imageUrl)
  }

  /** `value LIKE '%' || pattern || '%'`: a substring test, ASCII case-insensitive as
      SQLite's LIKE is. */
  predicate Like(value: string, pattern: string) {
    Contains(Lower(value), Lower(pattern))
  }

  /** What the filters ask for, stated directly. */
  predicate MatchesFilters(f: Filters, row: JoinedRow) {
    (f.title == [] || Like(row.title, f.title))
    && (f.artist == [] || Like(row.artist, f.artist))
    && (f.album == [] || Like(row.album, f.album))
    && ((f.minScore.None? && f.maxScore.None?)
        || f.minScore.GetOr(0) <= row.score <= f.maxScore.GetOr(10))
  }

  /** One entry of `whereClauses`, with the parameters bound to it. */
  datatype Clause =
    | TitleLike(pattern: string)
    | ArtistLike(pattern: string)
    | AlbumLike(pattern: string)
    | ScoreBetween(low: int, high: int)

  predicate Holds(c: Clause, row: JoinedRow) {
    match c
    case TitleLike(p) => Like(row.title, p)
    case ArtistLike(p) => Like(row.artist, p)
    case AlbumLike(p) => Like(row.album, p)
    case ScoreBetween(lo, hi) => lo <= row.score <= hi
  }

  /** The clauses joined with AND (no clause: no WHERE, every row). */
  predicate AllHold(clauses: seq<Clause>, row: JoinedRow) {
    forall i :: 0 <= i < |clauses| ==> Holds(clauses[i], row)
  }

  /** The WHERE builder of `getAllRatings`: one clause per supplied filter, in the
      order title, artist, album, score range. The WHERE it builds selects exactly the
      rows the filters ask for. */
  method WhereClauses(f: Filters) returns (clauses: seq<Clause>)
    ensures |clauses| <= 4
    ensures forall row :: AllHold(clauses, row) <==> MatchesFilters(f, row)
  {
    clauses := [];
    if f.title != [] {
      clauses := clauses + [TitleLike(f.title)];
    }
    ghost var afterTitle := clauses;
    if f.artist != [] {
      clauses := clauses + [ArtistLike(f.artist)];
    }
    ghost var afterArtist := clauses;
    if f.album != [] {
      clauses := clauses + [AlbumLike(f.album)];
    }
    ghost var afterAlbum := clauses;
    if f.minScore.Some? || f.maxScore.Some? {
      var low := f.minScore.GetOr(0);
      var high := f.maxScore.GetOr(10);
      clauses := clauses + [ScoreBetween(low, high)];
    }
    forall row
      ensures AllHold(clauses, row) <==> MatchesFilters(f, row)
    {
      if f.title != [] { AllHoldSnoc([], TitleLike(f.title), row); }
      if f.artist != [] { AllHoldSnoc(afterTitle, ArtistLike(f.artist), row); }
      if f.album != [] { AllHoldSnoc(afterArtist, AlbumLike(f.album), row); }
      if f.minScore.Some? || f.maxScore.Some? {
        AllHoldSnoc(afterAlbum, ScoreBetween(f.minScore.GetOr(0), f.maxScore.GetOr(10)), row);
      }
    }
  }

  /** One more pushed clause narrows the WHERE by exactly that clause. */
  lemma AllHoldSnoc(clauses: seq<Clause>, c: Clause, row: JoinedRow)
    ensures AllHold(clauses + [c], row) <==> AllHold(clauses, row) && Holds(c, row)
  {
    var cs := clauses + [c];
    assert cs[|clauses|] == c;
    assert forall i :: 0 <= i < |clauses| ==> cs[i] == clauses[i];
  }

  // ----- getAllRatings: sorting -----

  datatype Column = TitleColumn | ArtistColumn | AlbumColumn | ScoreColumn | CreatedAtColumn

  /** The sort argument, `sort.by` and `sort.order`; an absent one is the empty string. */
  datatype SortSpec = SortSpec(column: string, order: string)

  datatype Order = Order(column: Column, descending: bool)

  const ValidSortColumns: seq<string> := ["title", "artist", "album", "score", "created_at"]

  function ColumnName(c: Column): string {
    match c
    case TitleColumn => "title"
    case ArtistColumn => "artist"
    case AlbumColumn => "album"
    case ScoreColumn => "score"
    case CreatedAtColumn => "created_at"
  }

  /** The ORDER BY of `getAllRatings`: the requested column when it is whitelisted,
      descending only for `order === 'desc'`; anything else sorts by `created_at`
      descending. */
  function SortOrder(s: SortSpec): (o: Order)
    ensures s.column in ValidSortColumns ==> ColumnName(o.column) == s.column && (o.descending <==> s.order == "desc")
    ensures s.column !in ValidSortColumns ==> o == Order(CreatedAtColumn, true)
  {
    var desc := s.order == "desc";
    if s.column == "title" then Order(TitleColumn, desc)
    else if s.column == "artist" then Order(ArtistColumn, desc)
    else if s.column == "album" then Order(AlbumColumn, desc)
    else if s.column == "score" then Order(ScoreColumn, desc)
    else if s.column == "created_at" then Order(CreatedAtColumn, desc)
    else Order(CreatedAtColumn, true)
  }

  /** Ascending comparison on one column. */
  predicate KeyLe(c: Column, a: JoinedRow, b: JoinedRow) {
    match c
    case TitleColumn => StrLe(a.title, b.title)
    case ArtistColumn => StrLe(a.artist, b.artist)
    case AlbumColumn => StrLe(a.album, b.album)
    case ScoreColumn => a.score <= b.score
    case CreatedAtColumn => a.createdAt <= b.createdAt
  }

  /** `a` may come before `b` in the given order. */
  predicate Before(o: Order, a: JoinedRow, b: JoinedRow) {
    if o.descending then KeyLe(o.column, b, a) else KeyLe(o.column, a, b)
  }

  lemma BeforeTotal(o: Order, a: JoinedRow, b: JoinedRow)
    ensures Before(o, a, b) || Before(o, b, a)
  {
    match o.column
    case TitleColumn => StrLeTotal(a.title, b.title);
    case ArtistColumn => StrLeTotal(a.artist, b.artist);
    case AlbumColumn => StrLeTotal(a.album, b.album);
    case _ =>
  }

  lemma BeforeTransitive(o: Order, a: JoinedRow, b: JoinedRow, c: JoinedRow)
    requires Before(o, a, b) && Before(o, b, c)
    ensures Before(o, a, c)
  {
    if o.descending {
      match o.column
      case TitleColumn => StrLeTransitive(c.title, b.title, a.title);
      case ArtistColumn => StrLeTransitive(c.artist, b.artist, a.artist);
      case AlbumColumn => StrLeTransitive(c.album, b.album, a.album);
      case _ =>
    } else {
      match o.column
      case TitleColumn => StrLeTransitive(a.title, b.title, c.title);
      case ArtistColumn => StrLeTransitive(a.artist, b.artist, c.artist);
      case AlbumColumn => StrLeTransitive(a.album, b.album, c.album);
      case _ =>
    }
  }

  predicate SortedBy(rows: seq<JoinedRow>, o: Order) {
    forall i, j :: 0 <= i < j < |rows| ==> Before(o, rows[i], rows[j])
  }

  /** Where `r` goes in a sorted result: the first position whose row `r` may come
      before. */
  function InsertPos(rows: seq<JoinedRow>, r: JoinedRow, o: Order): (p: nat)
    ensures p <= |rows|
    ensures forall i :: 0 <= i < p ==> !Before(o, r, rows[i])
    ensures p < |rows| ==> Before(o, r, rows[p])
  {
    if rows == [] || Before(o, r, rows[0]) then 0 else 1 + InsertPos(rows[1..], r, o)
  }

  /** Insert one row into a sorted result, keeping it sorted. */
  function Insert(rows: seq<JoinedRow>, r: JoinedRow, o: Order): (res: seq<JoinedRow>)
    requires SortedBy(rows, o)
    ensures SortedBy(res, o)
    ensures multiset(res) == multiset(rows) + multiset{r}
    ensures forall x :: x in res <==> x in rows || x == r
  {
    var p := InsertPos(rows, r, o);
    var res := rows[..p] + [r] + rows[p..];
    assert rows == rows[..p] + rows[p..];
    InsertSorted(rows, r, o, p, res);
    res
  }

  lemma InsertSorted(rows: seq<JoinedRow>, r: JoinedRow, o: Order, p: nat, res: seq<JoinedRow>)
    requires SortedBy(rows, o) && p <= |rows|
    requires forall i :: 0 <= i < p ==> !Before(o, r, rows[i])
    requires p < |rows| ==> Before(o, r, rows[p])
    requires res == rows[..p] + [r] + rows[p..]
    ensures SortedBy(res, o)
  {
    forall i, j | 0 <= i < j < |res|
      ensures Before(o, res[i], res[j])
    {
      if i < p {
        BeforeTotal(o, r, rows[i]);
        if j > p {
          assert Before(o, rows[i], rows[j - 1]);
        }
      } else if i == p && j > p + 1 {
        BeforeTransitive(o, r, rows[p], rows[j - 1]);
      }
    }
  }

  /** No two rows of a result come from the same rating. */
  predicate DistinctSongs(rows: seq<JoinedRow>) {
    forall i, j :: 0 <= i < j < |rows| ==> rows[i].songId != rows[j].songId
  }

  /** Inserting a row for a song not yet in the result keeps song ids distinct. */
  lemma InsertKeepsDistinct(rows: seq<JoinedRow>, r: JoinedRow, o: Order)
    requires SortedBy(rows, o) && DistinctSongs(rows)
    requires forall x :: x in rows ==> x.songId != r.songId
    ensures DistinctSongs(Insert(rows, r, o))
  {
    var p := InsertPos(rows, r, o);
    var res := Insert(rows, r, o);
    assert res == rows[..p] + [r] + rows[p..];
    forall i | 0 <= i < |res|
      ensures res[i] == if i < p then rows[i] else if i == p then r else rows[i - 1]
    {
    }
    forall i, j | 0 <= i < j < |res|
      ensures res[i].songId != res[j].songId
    {
      if i < p && j == p {
        assert rows[i] in rows;
      } else if i == p {
        assert rows[j - 1] in rows;
      }
    }
  }

  // ----- The store -----

  /** The database behind the module-level `db` handle. `isOpen` is `db !== null`;
      `opens` counts calls to `openDatabaseAsync`. The tables live in the database
      file, so they survive the handle and are dropped only by `resetDatabase`. */
  class RatingStore {
    var isOpen: bool
    var opens: nat
    var songs: map<string, Song>
    var ratings: map<string, Rating>
    var lastRowId: nat

    ghost predicate Valid()
      reads this
    {
      TablesValid(songs, ratings, lastRowId)
    }

    /** A fresh install: no handle and no rows yet. */
    constructor()
      ensures Valid()
      ensures !isOpen && opens == 0 && songs == map[] && ratings == map[] && lastRowId == 0
    {
      isOpen := false;
      opens := 0;
      songs := map[];
      ratings := map[];
      lastRowId := 0;
    }

    /** `initDatabase`: opens the database only when no handle exists yet. */
    method InitDatabase()
      modifies this
      ensures isOpen
      ensures opens == if old(isOpen) then old(opens) else old(opens) + 1
      ensures songs == old(songs) && ratings == old(ratings) && lastRowId == old(lastRowId)
    {
      if !isOpen {
        isOpen := true;
        opens := opens + 1;
      }
    }

    /** `addSong`: INSERT OR REPLACE keyed by id; no other song and no rating changes. */
    method AddSong(song: Song)
      requires Valid()
      modifies this
      ensures Valid() && isOpen
      ensures opens == if old(isOpen) then old(opens) else old(opens) + 1
      ensures songs == old(songs)[song.id := song]
      ensures ratings == old(ratings) && lastRowId == old(lastRowId)
    {
      InitDatabase();
      AddSongKeepsTablesValid(songs, ratings, lastRowId, song);
      songs := songs[song.id := song];
    }

    /** `addRating`: rounds the score, then inserts or updates the song's one rating.
        A rounded score outside [0, 10] or an unknown song aborts the statement.
        `newId` is the rowid SQLite picks should a row be inserted. */
    method AddRating(songId: string, score: real, now: nat, newId: nat) returns (result: WriteResult)
      requires Valid() && lastRowId < newId
      modifies this
      ensures Valid() && isOpen
      ensures opens == if old(isOpen) then old(opens) else old(opens) + 1
      ensures result == RateOutcome(old(songs), songId, Round(score))
      ensures songs == old(songs)
      ensures result == Written ==>
        ratings == Upserted(old(ratings), newId, songId, Round(score), now)
        && lastRowId == LastIdAfter(old(ratings), old(lastRowId), newId, songId)
      ensures result != Written ==> ratings == old(ratings) && lastRowId == old(lastRowId)
    {
      InitDatabase();
      var rounded := Round(score);
      result := RateOutcome(songs, songId, rounded);
      if result == Written {
        UpsertKeepsTablesValid(songs, ratings, lastRowId, newId, songId, rounded, now);
        var next := LastIdAfter(ratings, lastRowId, newId, songId);
        ratings := Upserted(ratings, newId, songId, rounded, now);
        lastRowId := next;
      }
    }

    /** `getExistingRating`. */
    method GetExistingRating(songId: string) returns (score: Option<int>)
      requires Valid()
      modifies this
      ensures Valid() && isOpen
      ensures opens == if old(isOpen) then old(opens) else old(opens) + 1
      ensures songs == old(songs) && ratings == old(ratings) && lastRowId == old(lastRowId)
      ensures score == ExistingScore(ratings, songId)
    {
      InitDatabase();
      score := ExistingScore(ratings, songId);
    }

    /** `deleteRating`: removes that song's rating, if any; the song stays. */
    method DeleteRating(songId: string)
      requires Valid()
      modifies this
      ensures Valid() && isOpen
      ensures opens == if old(isOpen) then old(opens) else old(opens) + 1
      ensures ratings == old(ratings) - {songId}
      ensures songs == old(songs) && lastRowId == old(lastRowId)
    {
      InitDatabase();
      DeleteKeepsTablesValid(songs, ratings, lastRowId, songId);
      ratings := ratings - {songId};
    }

    /** `resetDatabase`: closes the handle and deletes the database file, so both
        tables and the AUTOINCREMENT counter start over. */
    method ResetDatabase()
      modifies this
      ensures Valid() && !isOpen
      ensures songs == map[] && ratings == map[] && lastRowId == 0 && opens == old(opens)
    {
      isOpen := false;
      songs := map[];
      ratings := map[];
      lastRowId := 0;
    }

    /** `getAllRatings`: opens the database and runs the query on its tables. */
    method GetAllRatings(f: Filters, s: SortSpec) returns (rows: seq<JoinedRow>)
      requires Valid()
      modifies this
      ensures Valid() && isOpen
      ensures opens == if old(isOpen) then old(opens) else old(opens) + 1
      ensures songs == old(songs) && ratings == old(ratings) && lastRowId == old(lastRowId)
      ensures forall r :: r in rows <==>
        r.songId in ratings && r == JoinOf(ratings[r.songId], songs[r.songId]) && MatchesFilters(f, r)
      ensures DistinctSongs(rows)
      ensures SortedBy(rows, SortOrder(s))
    {
      InitDatabase();
      rows := SelectRatings(songs, ratings, f, s);
    }
  }

  /** The SELECT of `getAllRatings` on given tables: every rating that joins with its
      song and passes the filters, each exactly once, in the requested order. */
  method SelectRatings(songs: map<string, Song>, ratings: map<string, Rating>, f: Filters, s: SortSpec)
    returns (rows: seq<JoinedRow>)
    requires forall k :: k in ratings ==> ratings[k].songId == k
    ensures forall r :: r in rows <==>
      r.songId in ratings && r.songId in songs && r == JoinOf(ratings[r.songId], songs[r.songId])
      && MatchesFilters(f, r)
    ensures DistinctSongs(rows)
    ensures SortedBy(rows, SortOrder(s))
  {
    var clauses := WhereClauses(f);
    var order := SortOrder(s);
    var todo := ratings.Keys;
    rows := [];
    while todo != {}
      invariant todo <= ratings.Keys
      invariant SortedBy(rows, order)
      invariant DistinctSongs(rows)
      invariant forall r :: r in rows ==>
        r.songId in ratings && r.songId in songs && r.songId !in todo
        && r == JoinOf(ratings[r.songId], songs[r.songId]) && MatchesFilters(f, r)
      invariant forall k :: k in ratings && k in songs && k !in todo && MatchesFilters(f, JoinOf(ratings[k], songs[k])) ==>
        JoinOf(ratings[k], songs[k]) in rows
      decreases todo
    {
      var k :| k in todo;
      if k in songs {
        var row := JoinOf(ratings[k], songs[k]);
        if AllHold(clauses, row) {
          InsertKeepsDistinct(rows, row, order);
          rows := Insert(rows, row, order);
        }
      }
      todo := todo - {k};
    }
  }
}
